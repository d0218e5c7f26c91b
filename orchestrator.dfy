/**
 * The scrape orchestrator (scraper/orchestrator.go): the pause flag, the
 * per-site run record and its counters, the region and listing loops, the
 * choice between the listing service and the legacy SQLite path, the legacy
 * Supabase sync and the command dispatch.
 *
 * The site handlers' scrapes are an input (`scrape`, a function of site and
 * region). Go ranges over the site and region maps in no fixed order; here
 * they are the sequences `siteOrder` and `SiteConfig.regions`. One `now`
 * stands for every clock reading of a call.
 */
module Orchestrator {
  import opened Util
  import opened Models
  import Identity
  import Listings
  import SQLite
  import Supabase
  import Postgres

  datatype SiteConfig = SiteConfig(name: string, regions: seq<string>)

  /** models.DomainScrapeRun without the error message and the stats metadata. */
  datatype DomainScrapeRun = DomainScrapeRun(
    id: int,
    source: string,
    startedAt: Time,
    finishedAt: Option<Time>,
    status: string,
    listingsFound: int,
    listingsNew: int,
    propertiesNew: int,
    errorsCount: int)

  /** The Postgres scrape_runs table (storage/postgres.go CreateScrapeRun, UpdateScrapeRun). */
  class ScrapeRunTable {
    var rows: seq<DomainScrapeRun>
    const failCreate: bool
    const failUpdate: bool

    /** Run ids are 1, 2, … in insertion order. */
    predicate Valid()
      reads this
    {
      forall i :: 0 <= i < |rows| ==> rows[i].id == i + 1
    }

    constructor (failCreate: bool, failUpdate: bool)
      ensures Valid() && rows == [] && this.failCreate == failCreate && this.failUpdate == failUpdate
    {
      rows := [];
      this.failCreate := failCreate;
      this.failUpdate := failUpdate;
    }

    /** INSERT … RETURNING id: the new row gets the next id, with zero counters. */
    method CreateScrapeRun(source: string, startedAt: Time, status: string) returns (r: Result<int>)
      requires Valid()
      modifies this
      ensures Valid()
      ensures r.Err? <==> failCreate
      ensures r.Err? ==> rows == old(rows)
      ensures r.Ok? ==> r.value == |old(rows)| + 1
      ensures r.Ok? ==> rows == old(rows) + [DomainScrapeRun(r.value, source, startedAt, None, status, 0, 0, 0, 0)]
    {
      if failCreate {
        return Err("create scrape run");
      }
      r := Ok(|rows| + 1);
      rows := rows + [DomainScrapeRun(|rows| + 1, source, startedAt, None, status, 0, 0, 0, 0)];
    }

    /** UPDATE … WHERE id: finish time, status and counters; source and start stay. */
    method UpdateScrapeRun(run: DomainScrapeRun) returns (r: Result<()>)
      requires Valid()
      modifies this
      ensures Valid()
      ensures r.Err? <==> failUpdate
      ensures rows == if r.Ok? && 1 <= run.id <= |old(rows)|
                      then old(rows)[run.id - 1 := old(rows)[run.id - 1].(finishedAt := run.finishedAt,
                             status := run.status, listingsFound := run.listingsFound, listingsNew := run.listingsNew,
                             propertiesNew := run.propertiesNew, errorsCount := run.errorsCount)]
                      else old(rows)
    {
      if failUpdate {
        return Err("update scrape run");
      }
      if 1 <= run.id <= |rows| {
        rows := rows[run.id - 1 := rows[run.id - 1].(finishedAt := run.finishedAt, status := run.status,
                     listingsFound := run.listingsFound, listingsNew := run.listingsNew,
                     propertiesNew := run.propertiesNew, errorsCount := run.errorsCount)];
      }
      r := Ok(());
    }
  }

  // ---------------------------------------------------------------------
  // Region results
  // ---------------------------------------------------------------------

  /** The index of the first failed scrape, or the length when none failed. */
  function FirstErr(rs: seq<Result<seq<RawListing>>>): (k: nat)
    ensures k <= |rs|
    ensures k < |rs| ==> rs[k].Err?
    ensures forall j :: 0 <= j < k ==> rs[j].Ok?
  {
    if rs == [] then 0
    else
      var k := FirstErr(rs[..|rs| - 1]);
      if k < |rs| - 1 then k else if rs[|rs| - 1].Err? then |rs| - 1 else |rs|
  }

  /** The listings the first `n` scrapes found, failed ones counting none. */
  function FoundIn(rs: seq<Result<seq<RawListing>>>, n: nat): nat
    requires n <= |rs|
  {
    if n == 0 then 0 else FoundIn(rs, n - 1) + (if rs[n - 1].Ok? then |rs[n - 1].value| else 0)
  }

  // ---------------------------------------------------------------------
  // Legacy rows
  // ---------------------------------------------------------------------

  /** What one listing adds to the run's counters. */
  datatype Tally = Tally(propertiesNew: nat, relisted: nat, listingsNew: nat)

  const NoTally := Tally(0, 0, 0)

  function Counted(run: ScrapeRun, t: Tally): ScrapeRun
  {
    run.(propertiesNew := run.propertiesNew + t.propertiesNew,
         propertiesRelisted := run.propertiesRelisted + t.relisted,
         listingsNew := run.listingsNew + t.listingsNew)
  }

  /** The legacy row for an unseen fingerprint, with the normalized address: listed once, first and last seen now. */
  function NewLocalProperty(raw: RawListing, fp: string, address: string, now: Time): Property
  {
    Property(fp, address, raw.city, raw.postalCode, raw.beds, raw.bedsPlus,
             raw.baths, raw.sqft, raw.propertyType, now, now, 1, false, false)
  }

  /** The stored row written back: seen now, the scraped postal code, one more listing when relisted. */
  function RefreshedLocal(stored: Property, raw: RawListing, relisted: bool, now: Time): Property
  {
    stored.(timesListed := stored.timesListed + (if relisted then 1 else 0), lastSeenAt := now,
            postalCode := raw.postalCode, synced := false)
  }

  /** The snapshot of the listing; its photos stand for the photo list embedded in the data. */
  function LegacySnapshot(raw: RawListing, fp: string, siteId: string, runId: int, now: Time): Snapshot
  {
    Snapshot(0, fp, raw.mls, siteId, raw.url, raw.price, raw.description, raw.photos, now, runId)
  }

  /** The last snapshot for the MLS number has the scraped price (a failed lookup counts as none). */
  predicate PriceUnchanged(snaps: seq<Snapshot>, failing: set<SQLite.Op>, raw: RawListing)
  {
    SQLite.GetLastSnapshotByMLSOp !in failing
    && var last := SQLite.LatestWhere(snaps, SQLite.ForListing(raw.mls));
    last.Some? && last.value.price == raw.price
  }

  /** The property's last snapshot belongs to another listing. */
  predicate LegacyRelist(snaps: seq<Snapshot>, fp: string, mls: string)
  {
    var last := SQLite.LatestWhere(snaps, SQLite.ForProperty(fp));
    last.Some? && last.value.listingId != mls
  }

  /**
   * Every listing handled so far (`handled`) was either counted as an error
   * or went through: on the service path it was aggregated into the stats,
   * whose counters the run's own follow; on the legacy path the stats stay
   * zero. The run's error count is the stats' plus one for a failed region,
   * a listing adds at most one to each counter, and one with an error adds
   * no new listing.
   */
  predicate Accounted(run: ScrapeRun, stats: Listings.ProcessStats, handled: int, failed: bool, viaService: bool)
    reads stats
  {
    run.errorsCount == stats.errors + (if failed then 1 else 0)
    && run.propertiesNew <= handled && run.propertiesRelisted <= handled
    && run.listingsNew + stats.errors <= handled
    && stats.Consistent()
    && (viaService ==>
          stats.listingsProcessed + stats.errors == handled
          && run.propertiesNew == stats.propertiesNew && run.propertiesRelisted == stats.relisted
          && run.listingsNew == stats.listingsNew)
    && (!viaService ==> stats.listingsProcessed == 0)
  }

  /** One listing adds at most one to each counter, and no new listing when it fails. */
  predicate TallyBound(r: Result<()>, t: Tally)
  {
    t.propertiesNew <= 1 && t.relisted <= 1 && t.listingsNew <= (if r.Ok? then 1 else 0)
  }

  /** The run's identity, status and found count are as before. */
  predicate SameRecord(run: ScrapeRun, run': ScrapeRun)
  {
    run'.id == run.id && run'.siteId == run.siteId && run'.startedAt == run.startedAt
    && run'.finishedAt == run.finishedAt && run'.status == run.status && run'.listingsFound == run.listingsFound
  }

  /** The flags of a service result, as counter increments. */
  function ResultTally(res: Listings.ProcessResult): Tally
  {
    Tally(if res.isNewProperty then 1 else 0, if res.isRelisted then 1 else 0, if res.isNewListing then 1 else 0)
  }

  /** The stats' other counters are as before. */
  predicate SameCounters(stats: Listings.ProcessStats, processed: nat, propertiesNew: nat, listingsNew: nat,
                         relisted: nat, priceChanges: nat)
    reads stats
  {
    stats.listingsProcessed == processed && stats.propertiesNew == propertiesNew && stats.listingsNew == listingsNew
    && stats.relisted == relisted && stats.priceChanges == priceChanges
  }

  // ---------------------------------------------------------------------
  // Legacy Supabase sync
  // ---------------------------------------------------------------------

  /** The sync reaches Supabase for property k: its snapshots load, there is one, and the upsert succeeds. */
  predicate Pushed(snaps: seq<Snapshot>, failing: set<SQLite.Op>, remoteFailing: bool, k: string)
  {
    SQLite.GetSnapshotsOp !in failing && SQLite.SnapshotsOf(snaps, k) != [] && !remoteFailing
  }

  /** The document the sync writes for a property: built from its snapshots in time order, first site, stamped now. */
  function PushedDoc(p: Property, snaps: seq<Snapshot>, now: Time): (d: Supabase.SupabaseProperty)
    requires SQLite.SnapshotsOf(snaps, p.id) != []
    ensures d.id == p.id && d.lastSyncedAt == now
    ensures d.history == Supabase.History(SQLite.SortByTime(SQLite.SnapshotsOf(snaps, p.id)))
  {
    var sorted := SQLite.SortByTime(SQLite.SnapshotsOf(snaps, p.id));
    assert |sorted| == |multiset(sorted)|;
    Supabase.BuildSupabaseProperty(p, sorted, sorted[0].siteId).value.(lastSyncedAt := now)
  }

  /** The keys of the rows not yet synced. */
  function UnsyncedKeys(props: map<string, Property>): set<string>
  {
    set k | k in props && !props[k].synced
  }

  /** The properties of `done` the sync reaches. */
  function ReachedIn(done: set<string>, snaps: seq<Snapshot>, failing: set<SQLite.Op>, remoteFailing: bool): set<string>
  {
    set k | k in done && Pushed(snaps, failing, remoteFailing, k)
  }

  /** The local rows once the properties `reached` are marked synced (when marking works). */
  function MarkedProps(props0: map<string, Property>, reached: set<string>, marks: bool): map<string, Property>
  {
    map k | k in props0 :: if k in reached && marks then props0[k].(synced := true) else props0[k]
  }

  /** The Supabase rows once the documents of the properties `reached` are written. */
  function WrittenRows(rows0: map<string, Supabase.SupabaseProperty>, props0: map<string, Property>,
                       reached: set<string>, snaps: seq<Snapshot>, now: Time): map<string, Supabase.SupabaseProperty>
    requires forall k :: k in reached ==> k in props0 && SQLite.SnapshotsOf(snaps, props0[k].id) != []
  {
    map k | k in rows0.Keys + reached :: if k in reached then PushedDoc(props0[k], snaps, now) else rows0[k]
  }

  /**
   * The local and Supabase rows after a sync that started from `props0` and
   * `rows0`: exactly the unsynced properties the sync reaches get their
   * document written and, when marking works, their synced flag; every other
   * row is as it was.
   */
  predicate SyncedFrom(props0: map<string, Property>, rows0: map<string, Supabase.SupabaseProperty>,
                       props: map<string, Property>, rows: map<string, Supabase.SupabaseProperty>,
                       snaps: seq<Snapshot>, failing: set<SQLite.Op>, remoteFailing: bool, now: Time)
  {
    (forall k :: k in props0 ==> props0[k].id == k)
    && var reached := ReachedIn(UnsyncedKeys(props0), snaps, failing, remoteFailing);
    props == MarkedProps(props0, reached, SQLite.MarkSyncedOp !in failing)
    && rows == WrittenRows(rows0, props0, reached, snaps, now)
  }

  /** The keys listed in `keys`. */
  function KeySet(keys: seq<string>): set<string>
  {
    set j | 0 <= j < |keys| :: keys[j]
  }

  lemma KeySetSnoc(keys: seq<string>, k: string)
    ensures KeySet(keys + [k]) == KeySet(keys) + {k}
  {
    var ks := keys + [k];
    assert ks[|keys|] == k;
    forall x | x in KeySet(keys)
      ensures x in KeySet(ks)
    {
      var j :| 0 <= j < |keys| && keys[j] == x;
      assert ks[j] == x;
    }
  }

  /** Handling one more property k adds k to the reached set exactly when the sync reaches it. */
  lemma ReachedInAdd(done: set<string>, snaps: seq<Snapshot>, failing: set<SQLite.Op>, remoteFailing: bool, k: string)
    ensures ReachedIn(done + {k}, snaps, failing, remoteFailing)
            == ReachedIn(done, snaps, failing, remoteFailing) + (if Pushed(snaps, failing, remoteFailing, k) then {k} else {})
  {
  }

  /** Marking one more property is a single map update. */
  lemma MarkedPropsAdd(props0: map<string, Property>, reached: set<string>, marks: bool, k: string)
    requires k in props0 && k !in reached
    ensures MarkedProps(props0, reached, marks)[k] == props0[k]
    ensures MarkedProps(props0, reached + {k}, marks)
            == if marks then MarkedProps(props0, reached, marks)[k := props0[k].(synced := true)]
               else MarkedProps(props0, reached, marks)
  {
  }

  /** Writing one more document is a single map update. */
  lemma WrittenRowsAdd(rows0: map<string, Supabase.SupabaseProperty>, props0: map<string, Property>,
                       reached: set<string>, snaps: seq<Snapshot>, now: Time, k: string)
    requires forall x :: x in reached ==> x in props0 && SQLite.SnapshotsOf(snaps, props0[x].id) != []
    requires k in props0 && SQLite.SnapshotsOf(snaps, props0[k].id) != []
    ensures WrittenRows(rows0, props0, reached + {k}, snaps, now)
            == WrittenRows(rows0, props0, reached, snaps, now)[k := PushedDoc(props0[k], snaps, now)]
  {
  }

  /**
   * One step of the sync loop keeps its invariant: after property k is
   * handled, the local rows and the Supabase rows are those of the reached
   * set grown by k exactly when the sync reaches k.
   */
  lemma SyncStep(props0: map<string, Property>, rows0: map<string, Supabase.SupabaseProperty>, reached: set<string>,
                 marks: bool, snaps: seq<Snapshot>, failing: set<SQLite.Op>, remoteFailing: bool, now: Time, k: string,
                 props1: map<string, Property>, props2: map<string, Property>,
                 rows1: map<string, Supabase.SupabaseProperty>, rows2: map<string, Supabase.SupabaseProperty>)
    requires k in props0 && props0[k].id == k && k !in reached
    requires forall x :: x in reached ==> x in props0 && SQLite.SnapshotsOf(snaps, props0[x].id) != []
    requires props1 == MarkedProps(props0, reached, marks)
    requires rows1 == WrittenRows(rows0, props0, reached, snaps, now)
    requires rows2 == if Pushed(snaps, failing, remoteFailing, k) then rows1[k := PushedDoc(props0[k], snaps, now)] else rows1
    requires props2 == if Pushed(snaps, failing, remoteFailing, k) && marks then props1[k := props1[k].(synced := true)] else props1
    ensures var reached' := if Pushed(snaps, failing, remoteFailing, k) then reached + {k} else reached;
      (forall x :: x in reached' ==> x in props0 && SQLite.SnapshotsOf(snaps, props0[x].id) != [])
      && props2 == MarkedProps(props0, reached', marks)
      && rows2 == WrittenRows(rows0, props0, reached', snaps, now)
  {
    MarkedPropsAdd(props0, reached, marks, k);
    if Pushed(snaps, failing, remoteFailing, k) {
      WrittenRowsAdd(rows0, props0, reached, snaps, now, k);
    }
  }

  /** The state of the sync loop once the first i keys are handled, on values. */
  ghost predicate SyncState(keys: seq<string>, i: nat, now: Time, props0: map<string, Property>,
                            rows0: map<string, Supabase.SupabaseProperty>, reached: set<string>,
                            snaps: seq<Snapshot>, failing: set<SQLite.Op>, remoteFailing: bool,
                            props: map<string, Property>, rows: map<string, Supabase.SupabaseProperty>)
  {
    i <= |keys|
    && reached == ReachedIn(KeySet(keys[..i]), snaps, failing, remoteFailing)
    && (forall x :: x in reached ==> x in props0 && SQLite.SnapshotsOf(snaps, props0[x].id) != [])
    && props == MarkedProps(props0, reached, SQLite.MarkSyncedOp !in failing)
    && rows == WrittenRows(rows0, props0, reached, snaps, now)
  }

  /** Handling key i, as SyncOne does, moves the loop state from i to i + 1. */
  lemma SyncStateStep(keys: seq<string>, i: nat, now: Time, props0: map<string, Property>,
                      rows0: map<string, Supabase.SupabaseProperty>, reached: set<string>,
                      snaps: seq<Snapshot>, failing: set<SQLite.Op>, remoteFailing: bool,
                      props1: map<string, Property>, rows1: map<string, Supabase.SupabaseProperty>,
                      props2: map<string, Property>, rows2: map<string, Supabase.SupabaseProperty>)
    requires i < |keys| && forall a, b :: 0 <= a < b < |keys| ==> keys[a] != keys[b]
    requires keys[i] in props0 && props0[keys[i]].id == keys[i]
    requires SyncState(keys, i, now, props0, rows0, reached, snaps, failing, remoteFailing, props1, rows1)
    requires rows2 == if Pushed(snaps, failing, remoteFailing, keys[i])
                      then rows1[keys[i] := PushedDoc(props0[keys[i]], snaps, now)] else rows1
    requires props2 == if Pushed(snaps, failing, remoteFailing, keys[i]) && SQLite.MarkSyncedOp !in failing
                       then props1[keys[i] := props1[keys[i]].(synced := true)] else props1
    ensures SyncState(keys, i + 1, now, props0, rows0,
                      if Pushed(snaps, failing, remoteFailing, keys[i]) then reached + {keys[i]} else reached,
                      snaps, failing, remoteFailing, props2, rows2)
  {
    var k := keys[i];
    assert k !in KeySet(keys[..i]);
    assert keys[..i + 1] == keys[..i] + [k];
    KeySetSnoc(keys[..i], k);
    ReachedInAdd(KeySet(keys[..i]), snaps, failing, remoteFailing, k);
    SyncStep(props0, rows0, reached, SQLite.MarkSyncedOp !in failing, snaps, failing, remoteFailing, now, k,
             props1, props2, rows1, rows2);
  }

  class Orchestrator {
    var paused: bool
    const sites: map<string, SiteConfig>
    const siteOrder: seq<string>
    const handlers: set<string>
    const local: SQLite.LocalStore
    const service: Listings.ListingService?
    const pgRuns: ScrapeRunTable?
    const remote: Supabase.SupabaseRemote?
    const scrape: (string, string) -> Result<seq<RawListing>>
    /** identity.Fingerprint over the SHA-256 function and identity.NormalizeAddress (see the constructor). */
    const fingerprint: RawListing -> string
    const normalize: string -> string

    /** Everything RunAll may write. */
    function Objects(): set<object>
    {
      var s: set<object> := {local};
      s + PgObjects() + RemoteObjects() + ServiceObjects()
    }

    /** The Supabase store, when there is one. */
    function RemoteObjects(): set<object>
    {
      if remote != null then {remote} else {}
    }

    /** The listing service's store and id source, when there is a service. */
    function ServiceObjects(): set<object>
    {
      if service != null then {service.store, service.ids} else {}
    }

    /** The Postgres run table, when there is one. */
    function PgObjects(): set<object>
    {
      if pgRuns != null then {pgRuns} else {}
    }

    /** The stores keep their invariants. */
    predicate Valid()
      reads this, local, pgRuns, ServiceObjects()
    {
      local.Valid() && (service != null ==> service.Valid()) && (pgRuns != null ==> pgRuns.Valid())
    }

    /** The stores the listing loop writes keep their invariants. */
    predicate ListingsValid()
      reads this, local, ServiceObjects()
    {
      local.Valid() && (service != null ==> service.Valid())
    }

    /** `siteOrder` lists each configured site once. */
    predicate Configured()
    {
      (forall s :: s in sites ==> s in siteOrder)
      && (forall i :: 0 <= i < |siteOrder| ==> siteOrder[i] in sites)
      && (forall i, j :: 0 <= i < j < |siteOrder| ==> siteOrder[i] != siteOrder[j])
    }

    /** The handlers' results for the site's regions, in order. */
    function Scrapes(siteId: string, regions: seq<string>): (rs: seq<Result<seq<RawListing>>>)
      ensures |rs| == |regions|
      ensures forall i :: 0 <= i < |regions| ==> rs[i] == scrape(siteId, regions[i])
    {
      seq(|regions|, i requires 0 <= i < |regions| => scrape(siteId, regions[i]))
    }

    /** RunSite gets as far as creating a run record. */
    predicate Runnable(siteId: string)
    {
      siteId in sites && siteId in handlers
    }

    constructor (sites: map<string, SiteConfig>, siteOrder: seq<string>, handlers: set<string>,
                 local: SQLite.LocalStore, service: Listings.ListingService?, pgRuns: ScrapeRunTable?,
                 remote: Supabase.SupabaseRemote?, scrape: (string, string) -> Result<seq<RawListing>>,
                 sha256: string -> Identity.Digest)
      ensures !paused
      ensures this.sites == sites && this.siteOrder == siteOrder && this.handlers == handlers
      ensures this.local == local && this.service == service && this.pgRuns == pgRuns && this.remote == remote
      ensures this.scrape == scrape
      ensures forall l :: fingerprint(l) == Identity.Fingerprint(l, sha256)
      ensures forall a :: normalize(a) == Identity.NormalizeAddress(a)
    {
      paused := false;
      this.sites, this.siteOrder, this.handlers := sites, siteOrder, handlers;
      this.local, this.service, this.pgRuns, this.remote := local, service, pgRuns, remote;
      this.scrape := scrape;
      fingerprint := (l: RawListing) => Identity.Fingerprint(l, sha256);
      normalize := (a: string) => Identity.NormalizeAddress(a);
    }

    // -------------------------------------------------------------------
    // processListingLegacy
    // -------------------------------------------------------------------

    /** A new property row, then match candidates for it, whose failure is only logged. */
    method LegacyInsert(raw: RawListing, fp: string, now: Time) returns (r: Result<()>)
      requires local.Valid()
      modifies local`properties, local`matches
      ensures local.Valid()
      ensures r.Err? <==> SQLite.UpsertPropertyOp in local.failing
      ensures local.properties == if r.Err? then old(local.properties)
                                  else old(local.properties)[fp := SQLite.Upserted(old(local.properties), NewLocalProperty(raw, fp, normalize(raw.address), now))]
    {
      var p := NewLocalProperty(raw, fp, normalize(raw.address), now);
      r := local.UpsertProperty(p);
      if r.Err? {
        return;
      }
      var _ := LegacyMatches(p);
    }

    /** InsertPotentialMatches for the new row; the caller only logs its outcome. */
    method LegacyMatches(p: Property) returns (count: nat)
      requires local.Valid()
      modifies local`matches
      ensures local.Valid()
    {
      ghost var rows, keys;
      var m;
      count, m, rows, keys := SQLite.InsertPotentialMatches(local, Some(p));
    }

    /** The property half of processListingLegacy: insert an unseen fingerprint, else refresh the row. */
    method LegacyProperty(raw: RawListing, fp: string, now: Time) returns (r: Result<()>, t: Tally)
      requires local.Valid()
      modifies local`properties, local`matches
      ensures local.Valid()
      ensures t.listingsNew == 0 && t.propertiesNew <= 1 && t.relisted <= 1 && t.propertiesNew + t.relisted <= 1
      ensures fp !in old(local.properties) ==>
        t.relisted == 0
        && (t.propertiesNew == 1 <==> SQLite.GetPropertyOp !in local.failing && SQLite.UpsertPropertyOp !in local.failing)
      ensures fp in old(local.properties) ==>
        t.propertiesNew == 0
        && (t.relisted == 1 <==> SQLite.GetPropertyOp !in local.failing && SQLite.GetLastSnapshotForPropertyOp !in local.failing
                                 && LegacyRelist(local.snapshots, fp, raw.mls))
      ensures r.Err? <==> SQLite.GetPropertyOp in local.failing
                          || (fp !in old(local.properties) && SQLite.UpsertPropertyOp in local.failing)
                          || (fp in old(local.properties)
                              && (SQLite.GetLastSnapshotForPropertyOp in local.failing || SQLite.UpsertPropertyOp in local.failing))
    {
      t := NoTally;
      var existing := local.GetProperty(fp);
      if existing.Err? {
        return Err(existing.msg), t;
      }
      if existing.value.None? {
        r := LegacyInsert(raw, fp, now);
        if r.Ok? {
          t := t.(propertiesNew := 1);
        }
      } else {
        var u, relisted := LegacyRefresh(existing.value.value, raw, fp, now);
        if relisted {
          t := t.(relisted := 1);
        }
        r := u;
      }
    }

    /** The stored row refreshed; relisted when the property's last snapshot is of another listing. */
    method LegacyRefresh(stored: Property, raw: RawListing, fp: string, now: Time) returns (r: Result<()>, relisted: bool)
      requires local.Valid() && fp in local.properties && local.properties[fp] == stored
      modifies local`properties
      ensures local.Valid()
      ensures r.Err? <==> SQLite.GetLastSnapshotForPropertyOp in local.failing || SQLite.UpsertPropertyOp in local.failing
      ensures relisted <==> SQLite.GetLastSnapshotForPropertyOp !in local.failing && LegacyRelist(local.snapshots, fp, raw.mls)
      ensures local.properties == if r.Err? then old(local.properties)
                                  else old(local.properties)[fp := SQLite.ConflictUpdate(stored, RefreshedLocal(stored, raw, relisted, now))]
    {
      relisted := false;
      var last := local.GetLastSnapshotForProperty(fp);
      if last.Err? {
        return Err(last.msg), relisted;
      }
      relisted := last.value.Some? && last.value.value.listingId != raw.mls;
      r := local.UpsertProperty(RefreshedLocal(stored, raw, relisted, now));
    }

    /**
     * processListingLegacy: the fingerprint of the raw listing decides which
     * property record the listing belongs to; LegacyListing does the rest.
     */
    method ProcessLegacy(raw: RawListing, siteId: string, runId: int, now: Time) returns (r: Result<()>, t: Tally)
      requires local.Valid()
      modifies local`properties, local`snapshots, local`matches
      ensures local.Valid()
      ensures LegacyDone(old(local.properties), old(local.snapshots), raw, fingerprint(raw),
                         siteId, runId, now, r, t)
      ensures TallyBound(r, t)
    {
      var fp := fingerprint(raw);
      r, t := LegacyListing(raw, fp, siteId, runId, now);
    }

    /**
     * What one legacy listing does to the store: an unchanged price for the
     * MLS number only touches the property (a failed touch is ignored);
     * otherwise Recorded.
     */
    predicate LegacyDone(props0: map<string, Property>, snaps0: seq<Snapshot>, raw: RawListing, fp: string,
                         siteId: string, runId: int, now: Time, r: Result<()>, t: Tally)
      reads this, local
    {
      (PriceUnchanged(snaps0, local.failing, raw) ==>
         r.Ok? && t == NoTally && local.snapshots == snaps0
         && local.properties == if SQLite.TouchPropertyOp !in local.failing && fp in props0
                                then props0[fp := props0[fp].(lastSeenAt := now, synced := false)]
                                else props0)
      && (!PriceUnchanged(snaps0, local.failing, raw) ==>
            Recorded(props0, snaps0, local.snapshots, raw, fp, siteId, runId, now, r, t))
    }

    /** The legacy path for a listing whose fingerprint is fp. */
    method LegacyListing(raw: RawListing, fp: string, siteId: string, runId: int, now: Time) returns (r: Result<()>, t: Tally)
      requires local.Valid()
      modifies local`properties, local`snapshots, local`matches
      ensures local.Valid()
      ensures LegacyDone(old(local.properties), old(local.snapshots), raw, fp, siteId, runId, now, r, t)
      ensures TallyBound(r, t)
    {
      var last := local.GetLastSnapshotByMLS(raw.mls);
      if last.Ok? && last.value.Some? && last.value.value.price == raw.price {
        LegacyTouch(fp, now);
        return Ok(()), NoTally;
      }
      r, t := LegacyRecord(raw, fp, siteId, runId, now);
    }

    /** TouchProperty, whose error the legacy path ignores. */
    method LegacyTouch(fp: string, now: Time)
      requires local.Valid()
      modifies local`properties
      ensures local.Valid()
      ensures local.properties == if SQLite.TouchPropertyOp !in local.failing && fp in old(local.properties)
                                  then old(local.properties)[fp := old(local.properties)[fp].(lastSeenAt := now, synced := false)]
                                  else old(local.properties)
    {
      var _ := local.TouchProperty(fp, now);
    }

    /** What the recording steps promise about the counters and the snapshot table. */
    predicate Recorded(props0: map<string, Property>, snaps0: seq<Snapshot>, snaps: seq<Snapshot>, raw: RawListing,
                       fp: string, siteId: string, runId: int, now: Time, r: Result<()>, t: Tally)
    {
      (fp !in props0 ==>
         t.relisted == 0
         && (t.propertiesNew == 1 <==> SQLite.GetPropertyOp !in local.failing && SQLite.UpsertPropertyOp !in local.failing))
      && (fp in props0 ==>
            t.propertiesNew == 0
            && (t.relisted == 1 <==> SQLite.GetPropertyOp !in local.failing && SQLite.GetLastSnapshotForPropertyOp !in local.failing
                                     && LegacyRelist(snaps0, fp, raw.mls)))
      && t.propertiesNew <= 1 && t.relisted <= 1 && t.propertiesNew + t.relisted <= 1
      && (t.listingsNew == if r.Ok? then 1 else 0)
      && (r.Ok? ==> snaps == snaps0 + [LegacySnapshot(raw, fp, siteId, runId, now).(id := |snaps0| + 1)])
      && (r.Err? ==> snaps == snaps0)
    }

    /**
     * The property is inserted or refreshed and a snapshot appended; the
     * counters a step reached stay counted when a later step fails.
     */
    method LegacyRecord(raw: RawListing, fp: string, siteId: string, runId: int, now: Time) returns (r: Result<()>, t: Tally)
      requires local.Valid()
      modifies local`properties, local`snapshots, local`matches
      ensures local.Valid()
      ensures Recorded(old(local.properties), old(local.snapshots), local.snapshots, raw, fp, siteId, runId, now, r, t)
      ensures r.Err? <==> SQLite.GetPropertyOp in local.failing
                          || (fp !in old(local.properties) && SQLite.UpsertPropertyOp in local.failing)
                          || (fp in old(local.properties)
                              && (SQLite.GetLastSnapshotForPropertyOp in local.failing || SQLite.UpsertPropertyOp in local.failing))
                          || SQLite.CreateSnapshotOp in local.failing
    {
      r, t := LegacyProperty(raw, fp, now);
      if r.Err? {
        return;
      }
      var c := local.CreateSnapshot(LegacySnapshot(raw, fp, siteId, runId, now));
      if c.Err? {
        return c, t;
      }
      t := t.(listingsNew := 1);
      r := Ok(());
    }

    // -------------------------------------------------------------------
    // processListing and the listing loop
    // -------------------------------------------------------------------

    /**
     * processListing: with a listing service, its result is aggregated into
     * the stats and its flags counted on the run; a service error changes
     * neither. Without one, the legacy path, whose counters land on the run.
     * `t` is what the call added to the run.
     */
    method ProcessListing(run: ScrapeRun, raw: RawListing, siteId: string, stats: Listings.ProcessStats, now: Time)
      returns (r: Result<()>, run': ScrapeRun, ghost t: Tally)
      requires ListingsValid()
      modifies local`properties, local`snapshots, local`matches, stats, ServiceObjects()
      ensures ListingsValid()
      ensures run' == Counted(run, t) && TallyBound(r, t)
      ensures stats.errors == old(stats.errors)
      ensures service != null ==>
        (r.Err? <==> Listings.LookupFails(service.store.failing))
        && local.properties == old(local.properties) && local.snapshots == old(local.snapshots)
      ensures service != null && r.Err? ==>
        t == NoTally && SameCounters(stats, old(stats.listingsProcessed), old(stats.propertiesNew), old(stats.listingsNew),
                                     old(stats.relisted), old(stats.priceChanges))
      ensures service != null && r.Ok? ==>
        stats.listingsProcessed == old(stats.listingsProcessed) + 1
        && stats.propertiesNew == old(stats.propertiesNew) + t.propertiesNew
        && stats.listingsNew == old(stats.listingsNew) + t.listingsNew
        && stats.relisted == old(stats.relisted) + t.relisted
        && old(stats.priceChanges) <= stats.priceChanges <= old(stats.priceChanges) + 1
        && (old(stats.Consistent()) ==> stats.Consistent())
      ensures service == null ==>
        SameCounters(stats, old(stats.listingsProcessed), old(stats.propertiesNew), old(stats.listingsNew),
                     old(stats.relisted), old(stats.priceChanges))
        && LegacyDone(old(local.properties), old(local.snapshots), raw, fingerprint(raw),
                      siteId, run.id, now, r, t)
    {
      var tally;
      if service != null {
        r, tally := ServiceListing(raw, siteId, stats, now);
      } else {
        r, tally := ProcessLegacy(raw, siteId, run.id, now);
      }
      run', t := Counted(run, tally), tally;
    }

    /** The service half of processListing. */
    method ServiceListing(raw: RawListing, siteId: string, stats: Listings.ProcessStats, now: Time)
      returns (r: Result<()>, t: Tally)
      requires service != null && service.Valid()
      modifies stats, ServiceObjects()
      ensures service.Valid()
      ensures r.Err? <==> Listings.LookupFails(service.store.failing)
      ensures stats.errors == old(stats.errors) && TallyBound(r, t)
      ensures r.Err? ==>
        t == NoTally && SameCounters(stats, old(stats.listingsProcessed), old(stats.propertiesNew), old(stats.listingsNew),
                                     old(stats.relisted), old(stats.priceChanges))
      ensures r.Ok? ==>
        stats.listingsProcessed == old(stats.listingsProcessed) + 1
        && stats.propertiesNew == old(stats.propertiesNew) + t.propertiesNew
        && stats.listingsNew == old(stats.listingsNew) + t.listingsNew
        && stats.relisted == old(stats.relisted) + t.relisted
        && old(stats.priceChanges) <= stats.priceChanges <= old(stats.priceChanges) + 1
        && (old(stats.Consistent()) ==> stats.Consistent())
    {
      var res := CallService(raw, siteId, now);
      if res.Err? {
        return Err(res.msg), NoTally;
      }
      stats.Aggregate(res.value);
      r, t := Ok(()), ResultTally(res.value);
    }

    /** ListingService.ProcessListing, seen from the orchestrator: its error cases and the shape of its result. */
    method CallService(raw: RawListing, siteId: string, now: Time) returns (res: Result<Listings.ProcessResult>)
      requires service != null && service.Valid()
      modifies ServiceObjects()
      ensures service.Valid()
      ensures res.Err? <==> Listings.LookupFails(service.store.failing)
      ensures res.Ok? ==> Listings.WellFormed(res.value)
    {
      ghost var delisted, names, agentIds;
      res, delisted, names, agentIds := service.ProcessListing(raw, siteId, now);
    }

    /** A listing that fails to process adds one to the run's and the stats' error counts. */
    method HandleListing(run: ScrapeRun, raw: RawListing, siteId: string, stats: Listings.ProcessStats, now: Time,
                         ghost handled: int)
      returns (run': ScrapeRun)
      requires ListingsValid() && Accounted(run, stats, handled, false, service != null)
      modifies local`properties, local`snapshots, local`matches, stats, ServiceObjects()
      ensures ListingsValid() && Accounted(run', stats, handled + 1, false, service != null)
      ensures SameRecord(run, run')
    {
      var r;
      ghost var t;
      r, run', t := ProcessListing(run, raw, siteId, stats, now);
      if r.Err? {
        run' := run'.(errorsCount := run'.errorsCount + 1);
        stats.errors := stats.errors + 1;
      }
    }

    /** The listings of one region, in order. */
    method HandleAll(run: ScrapeRun, listings: seq<RawListing>, siteId: string, stats: Listings.ProcessStats, now: Time,
                     ghost handled: int)
      returns (run': ScrapeRun)
      requires ListingsValid() && Accounted(run, stats, handled, false, service != null)
      modifies local`properties, local`snapshots, local`matches, stats, ServiceObjects()
      ensures ListingsValid() && Accounted(run', stats, handled + |listings|, false, service != null)
      ensures SameRecord(run, run')
    {
      run' := run;
      var i := 0;
      while i < |listings|
        invariant 0 <= i <= |listings|
        invariant ListingsValid() && Accounted(run', stats, handled + i, false, service != null)
        invariant SameRecord(run, run')
      {
        run' := HandleListing(run', listings[i], siteId, stats, now, handled + i);
        i := i + 1;
      }
    }

    /**
     * The region loop: each region's listings are counted as found and
     * handled; the first failed scrape adds an error, marks the run failed
     * and ends the loop with that error.
     */
    method ScrapeRegions(run: ScrapeRun, siteId: string, regions: seq<string>, stats: Listings.ProcessStats, now: Time)
      returns (r: Result<()>, run': ScrapeRun)
      requires ListingsValid() && Accounted(run, stats, run.listingsFound, false, service != null)
      modifies local`properties, local`snapshots, local`matches, stats, ServiceObjects()
      ensures ListingsValid()
      ensures var rs := Scrapes(siteId, regions);
        var k := FirstErr(rs);
        (r.Err? <==> k < |rs|)
        && run'.listingsFound == run.listingsFound + FoundIn(rs, k)
        && Accounted(run', stats, run'.listingsFound, k < |rs|, service != null)
        && run'.status == (if k < |rs| then RunFailed else run.status)
      ensures run'.id == run.id && run'.siteId == run.siteId && run'.startedAt == run.startedAt
      ensures run'.finishedAt == run.finishedAt
    {
      ghost var rs := Scrapes(siteId, regions);
      run' := run;
      var i := 0;
      while i < |regions|
        invariant 0 <= i <= |regions|
        invariant forall j :: 0 <= j < i ==> rs[j].Ok?
        invariant ListingsValid()
        invariant run'.listingsFound == run.listingsFound + FoundIn(rs, i)
        invariant Accounted(run', stats, run'.listingsFound, false, service != null)
        invariant SameRecord(run, run'.(listingsFound := run.listingsFound))
      {
        var listings := scrape(siteId, regions[i]);
        if listings.Err? {
          run' := run'.(errorsCount := run'.errorsCount + 1, status := RunFailed);
          return Err(listings.msg), run';
        }
        ghost var handled := run'.listingsFound;
        run' := run'.(listingsFound := run'.listingsFound + |listings.value|);
        run' := HandleAll(run', listings.value, siteId, stats, now, handled);
        i := i + 1;
      }
      r := Ok(());
    }

    // -------------------------------------------------------------------
    // RunSite
    // -------------------------------------------------------------------

    /** The Postgres run, when the table exists; a failed insert is only a warning and leaves no id. */
    method StartPgRun(siteId: string, now: Time) returns (pgRunId: Option<int>)
      requires pgRuns != null ==> pgRuns.Valid()
      modifies PgObjects()
      ensures pgRuns != null ==> pgRuns.Valid()
      ensures pgRunId.Some? <==> pgRuns != null && !pgRuns.failCreate
      ensures pgRuns != null ==>
        pgRuns.rows == if pgRuns.failCreate then old(pgRuns.rows)
                       else old(pgRuns.rows) + [DomainScrapeRun(|old(pgRuns.rows)| + 1, siteId, now, None, RunRunning, 0, 0, 0, 0)]
      ensures pgRunId.Some? ==> pgRunId.value == |old(pgRuns.rows)| + 1
    {
      pgRunId := None;
      if pgRuns != null {
        var created := pgRuns.CreateScrapeRun(siteId, now, RunRunning);
        if created.Ok? {
          pgRunId := Some(created.value);
        }
      }
    }

    /** The Postgres run status: failed exactly when the run failed. */
    static function PgStatus(status: string): string
    {
      if status == RunFailed then "failed" else "completed"
    }

    /**
     * The deferred step of RunSite: the run is finished now and written
     * back (a failure is ignored), and the Postgres run, when there is one,
     * takes the status and the stats' counters.
     */
    method FinishRun(run: ScrapeRun, pgRunId: Option<int>, stats: Listings.ProcessStats, now: Time,
                     ghost handled: int, ghost failed: bool)
      requires Valid() && Accounted(run, stats, handled, failed, service != null)
      requires pgRunId.Some? ==> pgRuns != null
      modifies local`runs, PgObjects()
      ensures Valid() && Accounted(run.(finishedAt := Some(now)), stats, handled, failed, service != null)
      ensures local.runs == if SQLite.UpdateRunOp !in local.failing && 1 <= run.id <= |old(local.runs)|
                            then old(local.runs)[run.id - 1 := SQLite.RunUpdated(old(local.runs)[run.id - 1], run.(finishedAt := Some(now)))]
                            else old(local.runs)
      ensures pgRuns != null ==>
        pgRuns.rows == if pgRunId.None? || pgRuns.failUpdate || !(1 <= pgRunId.value <= |old(pgRuns.rows)|) then old(pgRuns.rows)
                       else old(pgRuns.rows)[pgRunId.value - 1 := old(pgRuns.rows)[pgRunId.value - 1].(
                              finishedAt := Some(now), status := PgStatus(run.status),
                              listingsFound := stats.listingsProcessed, listingsNew := stats.listingsNew,
                              propertiesNew := stats.propertiesNew, errorsCount := stats.errors)]
    {
      var _ := local.UpdateRun(run.(finishedAt := Some(now)));
      if pgRunId.Some? {
        var pgRun := DomainScrapeRun(pgRunId.value, "", 0, Some(now), PgStatus(run.status),
                                     stats.listingsProcessed, stats.listingsNew, stats.propertiesNew, stats.errors);
        var _ := pgRuns.UpdateScrapeRun(pgRun);
      }
    }

    /**
     * What RunSite leaves behind for a site it gets to run: one more local
     * run, finished now, failed exactly when a region's scrape failed, with
     * the listings of the regions up to there as found and every one of
     * them accounted for; and the Postgres run, when it was created, with
     * the same status and the stats' counters.
     */
    predicate SiteRecorded(runs0: seq<ScrapeRun>, pg0: seq<DomainScrapeRun>, siteId: string, now: Time,
                           r: Result<()>, final: ScrapeRun, stats: Listings.ProcessStats?)
      requires Runnable(siteId)
      reads this, local, pgRuns, stats
    {
      var rs := Scrapes(siteId, sites[siteId].regions);
      var k := FirstErr(rs);
      stats != null
      && (r.Err? <==> k < |rs|)
      && final.id == |runs0| + 1 && final.siteId == siteId && final.startedAt == now && final.finishedAt == Some(now)
      && final.status == (if k < |rs| then RunFailed else RunCompleted)
      && final.listingsFound == FoundIn(rs, k)
      && Accounted(final, stats, final.listingsFound, k < |rs|, service != null)
      && local.runs == runs0 + [if SQLite.UpdateRunOp in local.failing then SQLite.NewRun(final.id, siteId, now, RunRunning)
                                else final]
      && (pgRuns != null ==>
            pgRuns.rows == if pgRuns.failCreate then pg0
                           else pg0 + [if pgRuns.failUpdate then DomainScrapeRun(|pg0| + 1, siteId, now, None, RunRunning, 0, 0, 0, 0)
                                       else DomainScrapeRun(|pg0| + 1, siteId, now, Some(now), final.status,
                                                            stats.listingsProcessed, stats.listingsNew, stats.propertiesNew,
                                                            stats.errors)])
    }

    /**
     * RunSite: an unknown site, a site without a handler or a failed run
     * insert is an error that records nothing; otherwise SiteRecorded.
     */
    method RunSite(siteId: string, now: Time) returns (r: Result<()>, ghost final: ScrapeRun, ghost stats: Listings.ProcessStats?)
      requires Valid()
      modifies local`properties, local`snapshots, local`matches, local`runs, PgObjects(), ServiceObjects()
      ensures Valid()
      ensures !Runnable(siteId) || SQLite.CreateRunOp in local.failing ==>
        r.Err? && unchanged(local) && (pgRuns != null ==> pgRuns.rows == old(pgRuns.rows))
      ensures Runnable(siteId) && SQLite.CreateRunOp !in local.failing ==>
        SiteRecorded(old(local.runs), if pgRuns != null then old(pgRuns.rows) else [], siteId, now, r, final, stats)
    {
      final, stats := SQLite.NewRun(0, siteId, now, RunRunning), null;
      if siteId !in sites {
        return Err("unknown site: " + siteId), final, stats;
      }
      if siteId !in handlers {
        return Err("no handler for site: " + siteId), final, stats;
      }
      var created, pgRunId := CreateRuns(siteId, now);
      if created.Err? {
        return Err(created.msg), final, stats;
      }
      var run := SQLite.NewRun(created.value, siteId, now, RunRunning);
      ghost var runs1, rows1 := local.runs, if pgRuns != null then pgRuns.rows else [];
      r, final, stats := ScrapeAndFinish(run, pgRunId, now);
      RecordedAfter(old(local.runs), if pgRuns != null then old(pgRuns.rows) else [], run, pgRunId, now,
                    runs1, rows1, r, final, stats);
    }

    /**
     * SiteRecorded follows from what CreateRuns and ScrapeAndFinish leave
     * behind: `runs1` and `rows1` are the run tables between the two.
     */
    lemma RecordedAfter(runs0: seq<ScrapeRun>, pg0: seq<DomainScrapeRun>, run: ScrapeRun, pgRunId: Option<int>, now: Time,
                        runs1: seq<ScrapeRun>, rows1: seq<DomainScrapeRun>,
                        r: Result<()>, final: ScrapeRun, stats: Listings.ProcessStats)
      requires Runnable(run.siteId)
      requires run == SQLite.NewRun(|runs0| + 1, run.siteId, now, RunRunning) && runs1 == runs0 + [run]
      requires pgRunId.Some? <==> pgRuns != null && !pgRuns.failCreate
      requires pgRunId.Some? ==> pgRunId.value == |pg0| + 1
      requires pgRuns != null ==>
        rows1 == if pgRuns.failCreate then pg0
                 else pg0 + [DomainScrapeRun(|pg0| + 1, run.siteId, now, None, RunRunning, 0, 0, 0, 0)]
      requires var rs := Scrapes(run.siteId, sites[run.siteId].regions);
        var k := FirstErr(rs);
        (r.Err? <==> k < |rs|)
        && final == run.(finishedAt := Some(now), status := final.status, listingsFound := final.listingsFound,
                         listingsNew := final.listingsNew, propertiesNew := final.propertiesNew,
                         propertiesRelisted := final.propertiesRelisted, errorsCount := final.errorsCount)
        && final.status == (if k < |rs| then RunFailed else RunCompleted)
        && final.listingsFound == FoundIn(rs, k)
        && Accounted(final, stats, final.listingsFound, k < |rs|, service != null)
      requires local.runs == if SQLite.UpdateRunOp !in local.failing && 1 <= run.id <= |runs1|
                             then runs1[run.id - 1 := SQLite.RunUpdated(runs1[run.id - 1], final)]
                             else runs1
      requires pgRuns != null ==>
        pgRuns.rows == if pgRunId.None? || pgRuns.failUpdate || !(1 <= pgRunId.value <= |rows1|) then rows1
                       else rows1[pgRunId.value - 1 := rows1[pgRunId.value - 1].(
                              finishedAt := Some(now), status := PgStatus(final.status),
                              listingsFound := stats.listingsProcessed, listingsNew := stats.listingsNew,
                              propertiesNew := stats.propertiesNew, errorsCount := stats.errors)]
      ensures SiteRecorded(runs0, pg0, run.siteId, now, r, final, stats)
    {
      assert SQLite.RunUpdated(run, final) == final;
      assert runs1[run.id - 1 := final] == runs0 + [final];
    }

    /** The local run record, then, when that succeeds, the Postgres one. */
    method CreateRuns(siteId: string, now: Time) returns (created: Result<int>, pgRunId: Option<int>)
      requires local.Valid() && (pgRuns != null ==> pgRuns.Valid())
      modifies local`runs, PgObjects()
      ensures local.Valid() && (pgRuns != null ==> pgRuns.Valid())
      ensures created.Err? <==> SQLite.CreateRunOp in local.failing
      ensures created.Err? ==> local.runs == old(local.runs) && pgRunId.None? && (pgRuns != null ==> pgRuns.rows == old(pgRuns.rows))
      ensures created.Ok? ==>
        created.value == |old(local.runs)| + 1
        && local.runs == old(local.runs) + [SQLite.NewRun(created.value, siteId, now, RunRunning)]
        && (pgRunId.Some? <==> pgRuns != null && !pgRuns.failCreate)
        && (pgRuns != null ==>
              pgRuns.rows == if pgRuns.failCreate then old(pgRuns.rows)
                             else old(pgRuns.rows) + [DomainScrapeRun(|old(pgRuns.rows)| + 1, siteId, now, None, RunRunning, 0, 0, 0, 0)])
        && (pgRunId.Some? ==> pgRunId.value == |old(pgRuns.rows)| + 1)
    {
      pgRunId := None;
      created := local.CreateRun(siteId, now, RunRunning);
      if created.Err? {
        return;
      }
      pgRunId := StartPgRun(siteId, now);
    }

    /**
     * The run of a site after its records exist: fresh stats, the region
     * loop, and the deferred finish with the final run.
     */
    method ScrapeAndFinish(run: ScrapeRun, pgRunId: Option<int>, now: Time)
      returns (r: Result<()>, final: ScrapeRun, ghost stats: Listings.ProcessStats)
      requires Valid() && run.siteId in sites
      requires run == SQLite.NewRun(run.id, run.siteId, run.startedAt, RunRunning)
      requires pgRunId.Some? ==> pgRuns != null
      modifies local`properties, local`snapshots, local`matches, local`runs, PgObjects(), ServiceObjects()
      ensures Valid() && fresh(stats)
      ensures var rs := Scrapes(run.siteId, sites[run.siteId].regions);
        var k := FirstErr(rs);
        (r.Err? <==> k < |rs|)
        && final == run.(finishedAt := Some(now), status := final.status, listingsFound := final.listingsFound,
                         listingsNew := final.listingsNew, propertiesNew := final.propertiesNew,
                         propertiesRelisted := final.propertiesRelisted, errorsCount := final.errorsCount)
        && final.status == (if k < |rs| then RunFailed else RunCompleted)
        && final.listingsFound == FoundIn(rs, k)
        && Accounted(final, stats, final.listingsFound, k < |rs|, service != null)
      ensures local.runs == if SQLite.UpdateRunOp !in local.failing && 1 <= run.id <= |old(local.runs)|
                            then old(local.runs)[run.id - 1 := SQLite.RunUpdated(old(local.runs)[run.id - 1], final)]
                            else old(local.runs)
      ensures pgRuns != null ==>
        pgRuns.rows == if pgRunId.None? || pgRuns.failUpdate || !(1 <= pgRunId.value <= |old(pgRuns.rows)|) then old(pgRuns.rows)
                       else old(pgRuns.rows)[pgRunId.value - 1 := old(pgRuns.rows)[pgRunId.value - 1].(
                              finishedAt := Some(now), status := PgStatus(final.status),
                              listingsFound := stats.listingsProcessed, listingsNew := stats.listingsNew,
                              propertiesNew := stats.propertiesNew, errorsCount := stats.errors)]
    {
      var st := new Listings.ProcessStats();
      var u, run' := ScrapeSite(run, run.siteId, st, now);
      ghost var rs := Scrapes(run.siteId, sites[run.siteId].regions);
      FinishRun(run', pgRunId, st, now, run'.listingsFound, FirstErr(rs) < |rs|);
      r, final, stats := u, run'.(finishedAt := Some(now)), st;
    }

    /** The region loop of RunSite, and the run completed when every region's scrape succeeded. */
    method ScrapeSite(run: ScrapeRun, siteId: string, stats: Listings.ProcessStats, now: Time)
      returns (r: Result<()>, run': ScrapeRun)
      requires Valid() && siteId in sites
      requires run.listingsFound == 0 && run.status == RunRunning && run.finishedAt.None?
      requires Accounted(run, stats, 0, false, service != null)
      modifies local`properties, local`snapshots, local`matches, stats, ServiceObjects()
      ensures Valid() && local.runs == old(local.runs)
      ensures pgRuns != null ==> pgRuns.rows == old(pgRuns.rows)
      ensures var rs := Scrapes(siteId, sites[siteId].regions);
        var k := FirstErr(rs);
        (r.Err? <==> k < |rs|)
        && run'.listingsFound == FoundIn(rs, k)
        && Accounted(run', stats, run'.listingsFound, k < |rs|, service != null)
        && run'.status == (if k < |rs| then RunFailed else RunCompleted)
      ensures run'.id == run.id && run'.siteId == run.siteId && run'.startedAt == run.startedAt
      ensures run'.finishedAt.None?
    {
      r, run' := ScrapeRegions(run, siteId, sites[siteId].regions, stats, now);
      if r.Ok? {
        run' := run'.(status := RunCompleted);
      }
    }

    // -------------------------------------------------------------------
    // RunAll
    // -------------------------------------------------------------------

    /** The sites of `order` RunSite gets to run, in order. */
    function RunnableSites(order: seq<string>): (out: seq<string>)
      ensures |out| <= |order|
      ensures forall i :: 0 <= i < |out| ==> Runnable(out[i]) && out[i] in order
    {
      if order == [] then []
      else RunnableSites(order[..|order| - 1]) + (if Runnable(order[|order| - 1]) then [order[|order| - 1]] else [])
    }

    /** Over a configured site order, RunAll runs every site that has a handler, and each once. */
    lemma {:induction false} RunnableSitesExactly(order: seq<string>)
      requires forall i, j :: 0 <= i < j < |order| ==> order[i] != order[j]
      ensures forall s :: s in RunnableSites(order) <==> s in order && Runnable(s)
      ensures forall i, j :: 0 <= i < j < |RunnableSites(order)| ==> RunnableSites(order)[i] != RunnableSites(order)[j]
    {
      if order != [] {
        var init := order[..|order| - 1];
        var last := order[|order| - 1];
        assert order == init + [last];
        RunnableSitesExactly(init);
        assert last !in init;
      }
    }

    /** The final state RunSite leaves a site's local run in. */
    predicate SiteRow(row: ScrapeRun, siteId: string, now: Time)
    {
      Runnable(siteId)
      && var rs := Scrapes(siteId, sites[siteId].regions);
      var k := FirstErr(rs);
      row.siteId == siteId && row.startedAt == now
      && (SQLite.UpdateRunOp in local.failing ==> row.status == RunRunning && row.finishedAt.None?)
      && (SQLite.UpdateRunOp !in local.failing ==>
            row.status == (if k < |rs| then RunFailed else RunCompleted)
            && row.finishedAt == Some(now) && row.listingsFound == FoundIn(rs, k))
    }

    /** The local runs after the sites `order` ran: one new row per runnable site, in order. */
    predicate SiteRows(runs0: seq<ScrapeRun>, runs: seq<ScrapeRun>, order: seq<string>, now: Time)
    {
      |runs| == |runs0| + |order| && runs[..|runs0|] == runs0
      && forall j :: 0 <= j < |order| ==> SiteRow(runs[|runs0| + j], order[j], now)
    }

    /**
     * What RunAll does, with `scraped` the local properties the sites leave
     * behind: nothing while paused; otherwise one finished run row per
     * runnable site, in order, and, when Supabase is configured without
     * Postgres, the sync of `scraped`.
     */
    twostate predicate RanAll(scraped: map<string, Property>, now: Time)
      reads this, Objects()
    {
      (old(paused) ==> unchanged(Objects()))
      && (!old(paused) && SQLite.CreateRunOp in local.failing ==> local.runs == old(local.runs))
      && (!old(paused) && SQLite.CreateRunOp !in local.failing ==>
            SiteRows(old(local.runs), local.runs, RunnableSites(siteOrder), now))
      && (remote != null && pgRuns != null ==> remote.rows == old(remote.rows))
      && (!old(paused) && (remote == null || pgRuns != null) ==> local.properties == scraped)
      && (!old(paused) && remote != null && pgRuns == null && SQLite.GetUnsyncedOp in local.failing ==>
            local.properties == scraped && remote.rows == old(remote.rows))
      && (!old(paused) && remote != null && pgRuns == null && SQLite.GetUnsyncedOp !in local.failing ==>
            SyncedFrom(scraped, old(remote.rows), local.properties, remote.rows, local.snapshots,
                       local.failing, remote.failing, now))
      && (!old(paused) && remote != null && pgRuns == null && SQLite.GetUnsyncedOp !in local.failing
          && SQLite.MarkSyncedOp !in local.failing ==>
            forall k :: k in local.properties && Pushed(local.snapshots, local.failing, remote.failing, k) ==>
              local.properties[k].synced)
    }

    /**
     * RunAll: nothing while paused; otherwise RunSite for every site in
     * order, its errors only logged, then the legacy sync when Supabase is
     * configured without Postgres. It never fails.
     */
    method RunAll(now: Time) returns (r: Result<()>, ghost scraped: map<string, Property>)
      requires Valid()
      modifies local`properties, local`snapshots, local`matches, local`runs, PgObjects(), ServiceObjects(), RemoteObjects()
      ensures Valid() && r.Ok?
      ensures RanAll(scraped, now)
    {
      scraped := local.properties;
      if !paused {
        RunSites(now);
        scraped := local.properties;
        if remote != null && pgRuns == null {
          var _ := SyncToSupabase(now);
        }
      }
      r := Ok(());
    }

    /** The site loop of RunAll. */
    method RunSites(now: Time)
      requires Valid()
      modifies local`properties, local`snapshots, local`matches, local`runs, PgObjects(), ServiceObjects()
      ensures Valid()
      ensures SQLite.CreateRunOp in local.failing ==> local.runs == old(local.runs)
      ensures SQLite.CreateRunOp !in local.failing ==> SiteRows(old(local.runs), local.runs, RunnableSites(siteOrder), now)
    {
      var i := 0;
      while i < |siteOrder|
        invariant 0 <= i <= |siteOrder|
        invariant Valid()
        invariant SQLite.CreateRunOp in local.failing ==> local.runs == old(local.runs)
        invariant SQLite.CreateRunOp !in local.failing ==>
          SiteRows(old(local.runs), local.runs, RunnableSites(siteOrder[..i]), now)
      {
        ghost var runs := local.runs;
        RunOne(siteOrder[i], now);
        assert siteOrder[..i + 1][..i] == siteOrder[..i];
        if SQLite.CreateRunOp !in local.failing {
          SiteRowsStep(old(local.runs), runs, local.runs, RunnableSites(siteOrder[..i]), siteOrder[i], now);
        }
        i := i + 1;
      }
      assert siteOrder[..i] == siteOrder;
    }

    /** One site of RunAll: RunSite, whose error is only logged. */
    method RunOne(siteId: string, now: Time)
      requires Valid()
      modifies local`properties, local`snapshots, local`matches, local`runs, PgObjects(), ServiceObjects()
      ensures Valid()
      ensures !Runnable(siteId) || SQLite.CreateRunOp in local.failing ==> local.runs == old(local.runs)
      ensures Runnable(siteId) && SQLite.CreateRunOp !in local.failing ==>
        |local.runs| == |old(local.runs)| + 1 && local.runs[..|old(local.runs)|] == old(local.runs)
        && SiteRow(local.runs[|old(local.runs)|], siteId, now)
    {
      var _, final, stats := RunSite(siteId, now);
      if Runnable(siteId) && SQLite.CreateRunOp !in local.failing {
        assert local.runs[..|old(local.runs)|] == old(local.runs);
      }
    }

    /** One more site appended to SiteRows. */
    lemma SiteRowsStep(runs0: seq<ScrapeRun>, runs1: seq<ScrapeRun>, runs2: seq<ScrapeRun>, order: seq<string>,
                       siteId: string, now: Time)
      requires SiteRows(runs0, runs1, order, now)
      requires Runnable(siteId) ==> |runs2| == |runs1| + 1 && runs2[..|runs1|] == runs1 && SiteRow(runs2[|runs1|], siteId, now)
      requires !Runnable(siteId) ==> runs2 == runs1
      ensures SiteRows(runs0, runs2, order + (if Runnable(siteId) then [siteId] else []), now)
    {
      if Runnable(siteId) {
        var order' := order + [siteId];
        forall j | 0 <= j < |order'|
          ensures SiteRow(runs2[|runs0| + j], order'[j], now)
        {
          if j < |order| {
            assert runs2[|runs0| + j] == runs1[|runs0| + j];
          }
        }
        assert runs2[..|runs0|] == runs1[..|runs0|];
      }
    }

    // -------------------------------------------------------------------
    // SyncToSupabase
    // -------------------------------------------------------------------

    /**
     * SyncToSupabase: without Supabase nothing; a failed unsynced query is
     * the error; otherwise exactly the unsynced properties the sync reaches
     * get their document written and, when marking works, their synced flag.
     */
    method SyncToSupabase(now: Time) returns (r: Result<()>)
      requires local.Valid()
      modifies local`properties, RemoteObjects()
      ensures local.Valid()
      ensures SyncDone(r, now)
    {
      if remote == null {
        return Ok(());
      }
      var props;
      ghost var keys;
      props, keys := local.GetUnsyncedProperties();
      if props.Err? {
        return Err(props.msg);
      }
      assert UnsyncedKeys(local.properties) == KeySet(keys) by {
        forall k | k in UnsyncedKeys(local.properties)
          ensures k in KeySet(keys)
        {
          var j :| 0 <= j < |keys| && keys[j] == k;
        }
      }
      if props.value == [] {
        return Ok(());
      }
      SyncLoop(props.value, keys, now);
      r := Ok(());
    }

    /**
     * What SyncToSupabase does: without Supabase nothing; a failed unsynced
     * query is the error and changes nothing; otherwise the rows are synced
     * as SyncedFrom says.
     */
    twostate predicate SyncDone(new r: Result<()>, now: Time)
      reads this, local, RemoteObjects()
    {
      (remote == null ==> r.Ok? && local.properties == old(local.properties))
      && (remote != null ==> (r.Err? <==> SQLite.GetUnsyncedOp in local.failing))
      && (remote != null && r.Err? ==> local.properties == old(local.properties) && remote.rows == old(remote.rows))
      && (remote != null && r.Ok? ==>
            SyncedFrom(old(local.properties), old(remote.rows), local.properties, remote.rows, local.snapshots,
                       local.failing, remote.failing, now))
    }

    /** The sync loop over the unsynced rows, whose keys are `keys`. */
    method SyncLoop(props: seq<Property>, ghost keys: seq<string>, now: Time)
      requires remote != null && local.Valid()
      requires |keys| == |props| && forall i, j :: 0 <= i < j < |keys| ==> keys[i] != keys[j]
      requires forall i :: 0 <= i < |keys| ==> keys[i] in local.properties && props[i] == local.properties[keys[i]]
      modifies local`properties, remote`rows
      ensures local.Valid()
      ensures var reached := ReachedIn(KeySet(keys), local.snapshots, local.failing, remote.failing);
        local.properties == MarkedProps(old(local.properties), reached, SQLite.MarkSyncedOp !in local.failing)
        && remote.rows == WrittenRows(old(remote.rows), old(local.properties), reached, local.snapshots, now)
    {
      ghost var props0, rows0 := local.properties, remote.rows;
      ghost var reached: set<string> := {};
      var i := 0;
      while i < |props|
        invariant 0 <= i <= |props|
        invariant SyncedUpTo(props, keys, i, now, props0, rows0, reached)
      {
        reached := SyncAt(props, keys, i, now, props0, rows0, reached);
        i := i + 1;
      }
      assert keys[..i] == keys;
    }

    /** The sync loop's invariant once the first i properties are handled. */
    ghost predicate SyncedUpTo(props: seq<Property>, keys: seq<string>, i: nat, now: Time,
                               props0: map<string, Property>, rows0: map<string, Supabase.SupabaseProperty>,
                               reached: set<string>)
      requires remote != null
      reads local, remote
    {
      local.Valid()
      && SyncState(keys, i, now, props0, rows0, reached, local.snapshots, local.failing, remote.failing,
                   local.properties, remote.rows)
    }

    /** One step of the sync loop: property i is handled and the invariant moves to i + 1. */
    method SyncAt(props: seq<Property>, ghost keys: seq<string>, i: nat, now: Time,
                  ghost props0: map<string, Property>, ghost rows0: map<string, Supabase.SupabaseProperty>,
                  ghost reached: set<string>) returns (ghost reached': set<string>)
      requires remote != null && i < |props| == |keys|
      requires forall i, j :: 0 <= i < j < |keys| ==> keys[i] != keys[j]
      requires forall i :: 0 <= i < |keys| ==> keys[i] in props0 && props[i] == props0[keys[i]]
      requires forall x :: x in props0 ==> props0[x].id == x
      requires SyncedUpTo(props, keys, i, now, props0, rows0, reached)
      modifies local`properties, remote`rows
      ensures SyncedUpTo(props, keys, i + 1, now, props0, rows0, reached')
    {
      ghost var k := keys[i];
      reached' := if Pushed(local.snapshots, local.failing, remote.failing, k) then reached + {k} else reached;
      assert props[i].id == k && k in local.properties;
      ghost var props1, rows1 := local.properties, remote.rows;
      SyncOne(props[i], now);
      SyncStateStep(keys, i, now, props0, rows0, reached, local.snapshots, local.failing, remote.failing,
                    props1, rows1, local.properties, remote.rows);
    }

    /**
     * One property of the sync loop: its snapshots in time order, the
     * document built from them (which cannot fail once some exist), the
     * upsert, and the synced mark, whose failure is only logged.
     */
    method SyncOne(prop: Property, now: Time)
      requires remote != null && local.Valid() && prop.id in local.properties
      modifies local`properties, remote`rows
      ensures local.Valid()
      ensures remote.rows == if Pushed(local.snapshots, local.failing, remote.failing, prop.id)
                             then old(remote.rows)[prop.id := PushedDoc(prop, local.snapshots, now)]
                             else old(remote.rows)
      ensures local.properties == if Pushed(local.snapshots, local.failing, remote.failing, prop.id) && SQLite.MarkSyncedOp !in local.failing
                                  then old(local.properties)[prop.id := old(local.properties)[prop.id].(synced := true)]
                                  else old(local.properties)
    {
      var snaps := local.GetSnapshotsForProperty(prop.id);
      if snaps.Err? {
        return;
      }
      assert |snaps.value| == |multiset(snaps.value)| == |multiset(SQLite.SnapshotsOf(local.snapshots, prop.id))|;
      if snaps.value == [] {
        return;
      }
      var doc := Supabase.BuildSupabaseProperty(prop, snaps.value, snaps.value[0].siteId).value;
      var u := remote.UpsertProperty(doc, now);
      if u.Err? {
        return;
      }
      var _ := local.MarkPropertySynced(prop.id);
    }

    // -------------------------------------------------------------------
    // HandleCommand
    // -------------------------------------------------------------------

    /** The commands that do work: scrape_now, scrape_site and sync_now. */
    method WorkCommand(command: string, site: string, now: Time) returns (r: Result<()>, ghost scraped: map<string, Property>)
      requires Valid()
      requires command == CmdScrapeNow || command == CmdScrapeSite || command == CmdSyncNow
      modifies local`properties, local`snapshots, local`matches, local`runs
      modifies PgObjects(), ServiceObjects(), RemoteObjects()
      ensures Valid()
      ensures command == CmdScrapeNow ==> r.Ok? && RanAll(scraped, now)
      ensures command == CmdScrapeSite && site == "" ==> r.Ok? && RanAll(scraped, now)
      ensures command == CmdScrapeSite && site != "" ==>
        (!Runnable(site) || SQLite.CreateRunOp in local.failing ==> r.Err? && local.runs == old(local.runs))
        && (Runnable(site) && SQLite.CreateRunOp !in local.failing ==>
              (r.Err? <==> FirstErr(Scrapes(site, sites[site].regions)) < |sites[site].regions|))
      ensures command == CmdSyncNow ==> SyncDone(r, now)
    {
      scraped := local.properties;
      if command == CmdScrapeNow {
        r, scraped := RunAll(now);
      } else if command == CmdScrapeSite {
        r, scraped := ScrapeSiteCommand(site, now);
      } else {
        r := SyncToSupabase(now);
      }
    }

    /** scrape_site: the named site, or every site when the command names none. */
    method ScrapeSiteCommand(site: string, now: Time) returns (r: Result<()>, ghost scraped: map<string, Property>)
      requires Valid()
      modifies local`properties, local`snapshots, local`matches, local`runs
      modifies PgObjects(), ServiceObjects(), RemoteObjects()
      ensures Valid()
      ensures site == "" ==> r.Ok? && RanAll(scraped, now)
      ensures site != "" && (!Runnable(site) || SQLite.CreateRunOp in local.failing) ==>
        r.Err? && local.runs == old(local.runs)
      ensures site != "" && Runnable(site) && SQLite.CreateRunOp !in local.failing ==>
        (r.Err? <==> FirstErr(Scrapes(site, sites[site].regions)) < |sites[site].regions|)
    {
      scraped := local.properties;
      if site != "" {
        ghost var final, stats;
        r, final, stats := RunSite(site, now);
      } else {
        r, scraped := RunAll(now);
      }
    }

    /**
     * HandleCommand: unparsable parameters are the error; scrape_now runs
     * every site, scrape_site one site (all of them when none is named),
     * pause and resume set the flag, sync_now syncs; anything else is
     * ignored.
     */
    method HandleCommand(cmd: Command, decode: string -> Result<CommandParams>, now: Time)
      returns (r: Result<()>, ghost scraped: map<string, Property>)
      requires Valid()
      modifies this`paused, local`properties, local`snapshots, local`matches, local`runs
      modifies PgObjects(), ServiceObjects(), RemoteObjects()
      ensures Valid()
      ensures SQLite.ParseCommandParams(cmd.params, decode).Err? ==> r.Err? && paused == old(paused) && unchanged(Objects())
      ensures SQLite.ParseCommandParams(cmd.params, decode).Ok? ==>
        var site := SQLite.ParseCommandParams(cmd.params, decode).value.site;
        (cmd.command == CmdPause ==> r.Ok? && paused && unchanged(Objects()))
        && (cmd.command == CmdResume ==> r.Ok? && !paused && unchanged(Objects()))
        && (cmd.command == CmdScrapeNow ==> r.Ok? && paused == old(paused) && RanAll(scraped, now))
        && (cmd.command == CmdScrapeSite && site == "" ==> r.Ok? && paused == old(paused) && RanAll(scraped, now))
        && (cmd.command == CmdScrapeSite && site != "" ==>
              paused == old(paused)
              && (!Runnable(site) || SQLite.CreateRunOp in local.failing ==> r.Err? && local.runs == old(local.runs))
              && (Runnable(site) && SQLite.CreateRunOp !in local.failing ==>
                    (r.Err? <==> FirstErr(Scrapes(site, sites[site].regions)) < |sites[site].regions|)))
        && (cmd.command == CmdSyncNow ==>
              paused == old(paused) && SyncDone(r, now))
        && (!KnownCommand(cmd.command) ==>
              r.Ok? && paused == old(paused) && unchanged(Objects()))
    {
      scraped := local.properties;
      var params := SQLite.ParseCommandParams(cmd.params, decode);
      if params.Err? {
        r := Err(params.msg);
      } else if cmd.command == CmdScrapeNow || cmd.command == CmdScrapeSite || cmd.command == CmdSyncNow {
        r, scraped := WorkCommand(cmd.command, params.value.site, now);
      } else if cmd.command == CmdPause {
        paused := true;
        r := Ok(());
      } else if cmd.command == CmdResume {
        paused := false;
        r := Ok(());
      } else {
        r := Ok(());
      }
    }
  }
}
