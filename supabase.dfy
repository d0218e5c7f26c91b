/**
 * The legacy Supabase sync (storage/supabase.go): the property document
 * built from a property and its ordered snapshots, and its history of
 * listed, delisted, relisted and price_change events.
 *
 * Timestamps are seconds. The history and photo lists are values here; their
 * JSON encoding is not modelled. The REST endpoint is a table of documents
 * keyed by id that fails as a whole when `failing` is set.
 */
module Supabase {
  import opened Util
  import opened Models

  const SecondsPerDay := 86400

  /** Go's integer conversion of a float truncates toward zero. */
  function TruncDiv(a: int, b: int): (q: int)
    requires b > 0
    ensures a >= 0 ==> q == a / b
    ensures a < 0 ==> q == -((-a) / b)
  {
    if a >= 0 then a / b else -((-a) / b)
  }

  /** calcDaysOnMarket: whole days from the first snapshot to the last, rounded toward zero. */
  function CalcDaysOnMarket(last: Snapshot, first: Snapshot): int
  {
    TruncDiv(last.scrapedAt - first.scrapedAt, SecondsPerDay)
  }

  /** A snapshot earlier than the first gives minus the days of the reverse span. */
  lemma DaysOnMarketAntisymmetric(a: Snapshot, b: Snapshot)
    ensures CalcDaysOnMarket(a, b) == -CalcDaysOnMarket(b, a)
  {
  }

  // ---------------------------------------------------------------------
  // History events
  // ---------------------------------------------------------------------

  const HistoryListed := "listed"
  const HistoryDelisted := "delisted"
  const HistoryRelisted := "relisted"
  const HistoryPriceChange := "price_change"

  /** The four event names differ pairwise. */
  lemma EventNamesDistinct()
    ensures HistoryListed != HistoryDelisted && HistoryListed != HistoryRelisted && HistoryListed != HistoryPriceChange
    ensures HistoryDelisted != HistoryRelisted && HistoryDelisted != HistoryPriceChange
    ensures HistoryRelisted != HistoryPriceChange
  {
    assert HistoryListed[0] == 'l' && HistoryDelisted[0] == 'd' && HistoryRelisted[0] == 'r' && HistoryPriceChange[0] == 'p';
  }

  /** The end of the listing `prev` belongs to, with its days counted from `first`. */
  function DelistedEvent(prev: Snapshot, first: Snapshot): HistoryEvent
  {
    HistoryEvent(HistoryDelisted, prev.scrapedAt, 0, prev.listingId, "", [], 0, CalcDaysOnMarket(prev, first))
  }

  function OpenedEvent(kind: string, snap: Snapshot): HistoryEvent
  {
    HistoryEvent(kind, snap.scrapedAt, snap.price, snap.listingId, snap.url, snap.photos, 0, 0)
  }

  function PriceChangeEvent(snap: Snapshot, prev: Snapshot): HistoryEvent
  {
    HistoryEvent(HistoryPriceChange, snap.scrapedAt, snap.price, snap.listingId, "", [], prev.price, 0)
  }

  /** The events one snapshot adds, given the snapshot before it (None for the first). */
  function StepEvents(prev: Option<Snapshot>, snap: Snapshot, first: Snapshot): seq<HistoryEvent>
  {
    if prev.None? then [OpenedEvent(HistoryListed, snap)]
    else if snap.listingId != prev.value.listingId then
      [DelistedEvent(prev.value, first), OpenedEvent(HistoryRelisted, snap)]
    else if snap.price != prev.value.price then [PriceChangeEvent(snap, prev.value)]
    else []
  }

  function Previous(snaps: seq<Snapshot>, i: nat): Option<Snapshot>
    requires i <= |snaps|
  {
    if i == 0 then None else Some(snaps[i - 1])
  }

  /** The history of the first `n` snapshots. */
  function HistoryOf(snaps: seq<Snapshot>, n: nat): seq<HistoryEvent>
    requires n <= |snaps|
  {
    if n == 0 then []
    else HistoryOf(snaps, n - 1) + StepEvents(Previous(snaps, n - 1), snaps[n - 1], snaps[0])
  }

  function History(snaps: seq<Snapshot>): seq<HistoryEvent>
  {
    HistoryOf(snaps, |snaps|)
  }

  /** buildHistory: one pass over the snapshots, tracking the one before. */
  method BuildHistory(snapshots: seq<Snapshot>) returns (events: seq<HistoryEvent>)
    ensures events == History(snapshots)
  {
    events := [];
    var prev: Option<Snapshot> := None;
    var i := 0;
    while i < |snapshots|
      invariant 0 <= i <= |snapshots|
      invariant prev == Previous(snapshots, i)
      invariant events == HistoryOf(snapshots, i)
    {
      var snap := snapshots[i];
      if prev.None? || snap.listingId != prev.value.listingId {
        var kind := HistoryListed;
        if prev.Some? {
          kind := HistoryRelisted;
          events := events + [DelistedEvent(prev.value, snapshots[0])];
        }
        events := events + [OpenedEvent(kind, snap)];
      } else if snap.price != prev.value.price {
        events := events + [PriceChangeEvent(snap, prev.value)];
      }
      prev := Some(snap);
      i := i + 1;
    }
  }

  function CountEvents(h: seq<HistoryEvent>, kind: string): nat
  {
    if h == [] then 0 else CountEvents(h[..|h| - 1], kind) + (if h[|h| - 1].event == kind then 1 else 0)
  }

  lemma {:induction false} CountEventsAppend(a: seq<HistoryEvent>, b: seq<HistoryEvent>, kind: string)
    ensures CountEvents(a + b, kind) == CountEvents(a, kind) + CountEvents(b, kind)
    decreases |b|
  {
    if b == [] {
      assert a + b == a;
    } else {
      assert (a + b)[..|a + b| - 1] == a + b[..|b| - 1];
      CountEventsAppend(a, b[..|b| - 1], kind);
    }
  }

  /** Each snapshot adds at most two events, so the history has at most two per snapshot. */
  lemma {:induction false} HistoryLength(snaps: seq<Snapshot>, n: nat)
    requires n <= |snaps|
    ensures |HistoryOf(snaps, n)| <= 2 * n
  {
    if n > 0 {
      HistoryLength(snaps, n - 1);
    }
  }

  /** Only the first snapshot opens with "listed": a later one adds no "listed" event. */
  lemma LaterStepNotListed(prev: Snapshot, snap: Snapshot, first: Snapshot)
    ensures CountEvents(StepEvents(Some(prev), snap, first), HistoryListed) == 0
  {
    var step := StepEvents(Some(prev), snap, first);
    EventNamesDistinct();
    if |step| == 2 {
      assert step[..1][..0] == [];
      assert CountEvents(step[..1], HistoryListed) == 0;
    } else if |step| == 1 {
      assert step[..0] == [];
    }
  }

  /** A non-empty history opens with "listed", and that is its only "listed" event. */
  lemma {:induction false} ListedOnce(snaps: seq<Snapshot>, n: nat)
    requires 0 < n <= |snaps|
    ensures |HistoryOf(snaps, n)| > 0
    ensures HistoryOf(snaps, n)[0] == OpenedEvent(HistoryListed, snaps[0])
    ensures CountEvents(HistoryOf(snaps, n), HistoryListed) == 1
  {
    if n == 1 {
      assert HistoryOf(snaps, 1) == [OpenedEvent(HistoryListed, snaps[0])];
      assert [OpenedEvent(HistoryListed, snaps[0])][..0] == [];
    } else {
      ListedOnce(snaps, n - 1);
      var step := StepEvents(Previous(snaps, n - 1), snaps[n - 1], snaps[0]);
      CountEventsAppend(HistoryOf(snaps, n - 1), step, HistoryListed);
      LaterStepNotListed(snaps[n - 2], snaps[n - 1], snaps[0]);
    }
  }

  predicate RelistsFollowDelists(h: seq<HistoryEvent>)
  {
    forall i :: 0 <= i < |h| && h[i].event == HistoryRelisted ==> 0 < i && h[i - 1].event == HistoryDelisted
  }

  predicate DelistsCountFrom(h: seq<HistoryEvent>, first: Snapshot)
  {
    forall i :: 0 <= i < |h| && h[i].event == HistoryDelisted ==>
      h[i].daysOnMarket == TruncDiv(h[i].date - first.scrapedAt, SecondsPerDay)
  }

  /** Every "relisted" event comes right after a "delisted" one. */
  lemma {:induction false} RelistedAfterDelisted(snaps: seq<Snapshot>, n: nat)
    requires n <= |snaps|
    ensures RelistsFollowDelists(HistoryOf(snaps, n))
  {
    if n > 0 {
      RelistedAfterDelisted(snaps, n - 1);
      EventNamesDistinct();
      var h0 := HistoryOf(snaps, n - 1);
      var step := StepEvents(Previous(snaps, n - 1), snaps[n - 1], snaps[0]);
      var h := h0 + step;
      forall i | 0 <= i < |h| && h[i].event == HistoryRelisted
        ensures 0 < i && h[i - 1].event == HistoryDelisted
      {
        if i < |h0| {
          assert h[i] == h0[i];
          assert h0[i].event == HistoryRelisted;
          assert h[i - 1] == h0[i - 1];
        } else {
          assert h[i] == step[i - |h0|];
          assert i == |h0| + 1 && h[i - 1] == step[0];
        }
      }
    }
  }

  /** Every "delisted" event counts its days from the first snapshot of all, whatever listing it ends. */
  lemma {:induction false} DelistedDaysFromFirst(snaps: seq<Snapshot>, n: nat)
    requires 0 < n <= |snaps|
    ensures DelistsCountFrom(HistoryOf(snaps, n), snaps[0])
  {
    if n > 1 {
      DelistedDaysFromFirst(snaps, n - 1);
    }
    EventNamesDistinct();
    var h0 := HistoryOf(snaps, n - 1);
    var step := StepEvents(Previous(snaps, n - 1), snaps[n - 1], snaps[0]);
    var h := h0 + step;
    forall i | 0 <= i < |h| && h[i].event == HistoryDelisted
      ensures h[i].daysOnMarket == TruncDiv(h[i].date - snaps[0].scrapedAt, SecondsPerDay)
    {
      if i < |h0| {
        assert h[i] == h0[i];
      } else {
        assert h[i] == step[i - |h0|];
      }
    }
  }

  /**
   * Within one listing a snapshot adds a price_change carrying the previous
   * price exactly when the price differs, and nothing otherwise; a new
   * listing id adds a delisted event for the old listing, dated at the
   * previous snapshot, and then a relisted event.
   */
  lemma StepRule(prev: Snapshot, snap: Snapshot, first: Snapshot)
    ensures snap.listingId == prev.listingId && snap.price != prev.price ==>
      StepEvents(Some(prev), snap, first) == [PriceChangeEvent(snap, prev)]
      && StepEvents(Some(prev), snap, first)[0].previousPrice == prev.price
    ensures snap.listingId == prev.listingId && snap.price == prev.price ==> StepEvents(Some(prev), snap, first) == []
    ensures snap.listingId != prev.listingId ==>
      var e := StepEvents(Some(prev), snap, first);
      |e| == 2 && e[0].event == HistoryDelisted && e[0].date == prev.scrapedAt && e[0].listingId == prev.listingId
      && e[1].event == HistoryRelisted && e[1].listingId == snap.listingId && e[1].price == snap.price
  {
  }

  // ---------------------------------------------------------------------
  // The property document
  // ---------------------------------------------------------------------

  datatype SupabaseProperty = SupabaseProperty(
    id: string,
    address: string,
    city: string,
    beds: int,
    bedsPlus: int,
    baths: int,
    sqft: int,
    propertyType: string,
    currentPrice: int,
    currentListingId: string,
    currentUrl: string,
    description: string,
    photos: seq<string>,
    isActive: bool,
    history: seq<HistoryEvent>,
    timesListed: int,
    firstSeenAt: Time,
    lastSeenAt: Time,
    lastSyncedAt: Time,
    siteId: string)

  /**
   * BuildSupabaseProperty: an error exactly when there are no snapshots;
   * otherwise the current price, listing id, URL, description and photos
   * are those of the last snapshot, and the rest comes from the property.
   */
  function BuildSupabaseProperty(prop: Property, snapshots: seq<Snapshot>, siteId: string): (r: Result<SupabaseProperty>)
    ensures r.Err? <==> snapshots == []
    ensures r.Ok? ==>
      var latest := snapshots[|snapshots| - 1];
      r.value.currentPrice == latest.price && r.value.currentListingId == latest.listingId
      && r.value.currentUrl == latest.url && r.value.description == latest.description
      && r.value.photos == latest.photos && r.value.history == History(snapshots)
      && r.value.id == prop.id && r.value.siteId == siteId
  {
    if snapshots == [] then Err("no snapshots for property")
    else
      var latest := snapshots[|snapshots| - 1];
      Ok(SupabaseProperty(prop.id, prop.normalizedAddress, prop.city, prop.beds, prop.bedsPlus, prop.baths, prop.sqft,
                          prop.propertyType, latest.price, latest.listingId, latest.url, latest.description,
                          latest.photos, prop.isActive, History(snapshots), prop.timesListed, prop.firstSeenAt,
                          prop.lastSeenAt, 0, siteId))
  }

  /** The remote properties table. */
  class SupabaseRemote {
    var rows: map<string, SupabaseProperty>
    const failing: bool

    constructor (failing: bool)
      ensures rows == map[] && this.failing == failing
    {
      rows := map[];
      this.failing := failing;
    }

    /** UpsertProperty: stamped with the sync time and merged on id. */
    method UpsertProperty(prop: SupabaseProperty, now: Time) returns (r: Result<()>)
      modifies this`rows
      ensures r.Err? <==> failing
      ensures rows == if r.Err? then old(rows) else old(rows)[prop.id := prop.(lastSyncedAt := now)]
    {
      if failing {
        return Err("supabase error");
      }
      rows := rows[prop.id := prop.(lastSyncedAt := now)];
      r := Ok(());
    }
  }
}
