/**
 * Listing health checks (services/healthcheck.go, workers/healthcheck.go):
 * classifying what fetching a listing URL gave, and the store updates of
 * the worker's batch over stale listings.
 *
 * The three fetches (ScrapingBee, HEAD, proxied GET) are inputs: a
 * `Probe` per URL. Price extraction from a page is a regular-expression
 * search and is a function parameter.
 */
module Healthcheck {
  import opened Util
  import opened Models
  import opened Postgres
  import opened Listings
  import opened Signal

  // ---------------------------------------------------------------------
  // Delist patterns
  // ---------------------------------------------------------------------

  const DelistRedirectPatterns: seq<string> := ["/map", "/search", "PropertySearchTypeId", "notfound", "error"]

  const DelistPageIndicators: seq<string> :=
    ["This listing is no longer available", "listing has been removed", "property is no longer listed",
     "PropertySearchTypeId"]

  /** Some pattern occurs in the text, both lowercased. */
  function MatchesAny(text: string, patterns: seq<string>): (b: bool)
    ensures b <==> exists i :: 0 <= i < |patterns| && Contains(ToLower(text), ToLower(patterns[i]))
  {
    if patterns == [] then false
    else Contains(ToLower(text), ToLower(patterns[0])) || MatchesAny(text, patterns[1..])
  }

  /** isDelistRedirect: the Location header points at a map, a search or an error page. */
  predicate IsDelistRedirect(location: string)
  {
    MatchesAny(location, DelistRedirectPatterns)
  }

  /** isDelistedPage: the page says the listing is gone. */
  predicate IsDelistedPage(html: string)
  {
    MatchesAny(html, DelistPageIndicators)
  }

  /** The matching ignores letter case. */
  lemma MatchesAnyIgnoresCase(text: string, patterns: seq<string>)
    ensures MatchesAny(ToLower(text), patterns) == MatchesAny(text, patterns)
  {
    ToLowerIdempotent(text);
  }

  /** No non-empty pattern occurs in the empty string. */
  lemma {:induction false} NothingMatchesEmpty(patterns: seq<string>)
    requires forall i :: 0 <= i < |patterns| ==> patterns[i] != []
    ensures !MatchesAny("", patterns)
  {
    if patterns != [] {
      assert |ToLower(patterns[0])| == |patterns[0]|;
      NothingMatchesEmpty(patterns[1..]);
    }
  }

  /** A redirect without a Location header is no delist redirect. */
  lemma EmptyLocationIsNoDelist()
    ensures !IsDelistRedirect("")
  {
    NothingMatchesEmpty(DelistRedirectPatterns);
  }

  // ---------------------------------------------------------------------
  // Classifying the fetches
  // ---------------------------------------------------------------------

  /** What one fetch gave: a request or transport error, or a status, a Location and a body (None if reading failed). */
  datatype Fetch =
    | FetchError(msg: string)
    | Fetched(status: int, location: string, body: Option<string>)

  /** The three fetches of one listing URL, tried in this order. */
  datatype Probe = Probe(scrapingBee: Fetch, head: Fetch, proxy: Fetch)

  datatype CheckResult = CheckResult(isLive: bool, statusCode: int, currentPrice: Option<int>, err: Option<string>)

  function Failed(msg: string): CheckResult
  {
    CheckResult(false, 0, None, Some(msg))
  }

  /**
   * The status switch of checkWithHEAD and checkWithProxy: 200 is live,
   * 404 and 410 are gone, a 301 or 302 is gone when it redirects to a
   * delist page, and any other code counts as live.
   */
  function StatusLive(status: int, location: string): (live: bool)
    ensures !live <==> status == 404 || status == 410 || ((status == 301 || status == 302) && IsDelistRedirect(location))
  {
    if status == 200 then true
    else if status == 404 || status == 410 then false
    else if status == 301 || status == 302 then !IsDelistRedirect(location)
    else true
  }

  /** A redirect without a Location header counts as live. */
  lemma RedirectWithoutLocationIsLive(status: int)
    requires status == 301 || status == 302
    ensures StatusLive(status, "")
  {
    EmptyLocationIsNoDelist();
  }

  /** checkWithHEAD: no body, so no price. */
  function HeadResult(f: Fetch): (r: CheckResult)
    ensures r.currentPrice.None?
    ensures r.err.Some? <==> f.FetchError?
    ensures f.Fetched? ==> r.isLive == StatusLive(f.status, f.location) && r.statusCode == f.status
  {
    match f
    case FetchError(msg) => Failed(msg)
    case Fetched(status, location, _) => CheckResult(StatusLive(status, location), status, None, None)
  }

  /** checkWithProxy: as HEAD, and a 200 page is searched for the current price. */
  function ProxyResult(f: Fetch, extractPrice: string -> Option<int>): (r: CheckResult)
    ensures r.err.Some? <==> f.FetchError?
    ensures f.Fetched? ==> r.isLive == StatusLive(f.status, f.location) && r.statusCode == f.status
    ensures r.currentPrice.Some? ==> f.Fetched? && f.status == 200 && f.body.Some?
                                     && r.currentPrice == extractPrice(f.body.value)
  {
    match f
    case FetchError(msg) => Failed(msg)
    case Fetched(status, location, body) =>
      var price := if status == 200 && body.Some? then extractPrice(body.value) else None;
      CheckResult(StatusLive(status, location), status, price, None)
  }

  /** HEAD and the proxied GET classify a response the same way. */
  lemma HeadAgreesWithProxy(f: Fetch, extractPrice: string -> Option<int>)
    ensures HeadResult(f).isLive == ProxyResult(f, extractPrice).isLive
    ensures HeadResult(f).err.Some? == ProxyResult(f, extractPrice).err.Some?
  {
  }

  /**
   * checkWithScrapingBee: an error status is a 404 when the body mentions
   * "404" or "not found" and an error otherwise; a page with a delist
   * indicator is gone; any other page is live, with its price.
   */
  function ScrapingBeeResult(f: Fetch, extractPrice: string -> Option<int>): (r: CheckResult)
    ensures f.FetchError? || (f.Fetched? && f.body.None?) ==> r.err.Some?
    ensures f.Fetched? && f.body.Some? && f.status >= 400 ==>
      (r.err.None? <==> Contains(f.body.value, "404") || Contains(f.body.value, "not found"))
      && (r.err.None? ==> !r.isLive && r.statusCode == 404)
    ensures f.Fetched? && f.body.Some? && f.status < 400 ==>
      r.err.None? && r.statusCode == 200 && (r.isLive <==> !IsDelistedPage(f.body.value))
      && r.currentPrice == (if r.isLive then extractPrice(f.body.value) else None)
  {
    match f
    case FetchError(msg) => Failed(msg)
    case Fetched(status, _, body) =>
      if body.None? then Failed("read body")
      else if status >= 400 then
        if Contains(body.value, "404") || Contains(body.value, "not found") then CheckResult(false, 404, None, None)
        else Failed("scrapingbee status")
      else if IsDelistedPage(body.value) then CheckResult(false, 200, None, None)
      else CheckResult(true, 200, extractPrice(body.value), None)
  }

  /** How a listing URL is checked: whether a ScrapingBee key is set, the fetches, and the price extractor. */
  datatype Checker = Checker(hasScrapingBeeKey: bool, probe: string -> Probe, extractPrice: string -> Option<int>)

  /**
   * Check: ScrapingBee when a key is set, then HEAD, then the proxied GET;
   * the first result without an error is returned, else the proxy's.
   */
  function Check(c: Checker, url: string): CheckResult
  {
    var p := c.probe(url);
    var bee := ScrapingBeeResult(p.scrapingBee, c.extractPrice);
    var head := HeadResult(p.head);
    if c.hasScrapingBeeKey && bee.err.None? then bee
    else if head.err.None? then head
    else ProxyResult(p.proxy, c.extractPrice)
  }

  /** The fallback order: each method is used only when those before it failed, and an error means all failed. */
  lemma CheckFallbackOrder(c: Checker, url: string)
    ensures var p := c.probe(url);
      var r := Check(c, url);
      (c.hasScrapingBeeKey && ScrapingBeeResult(p.scrapingBee, c.extractPrice).err.None? ==>
         r == ScrapingBeeResult(p.scrapingBee, c.extractPrice))
      && (r != ScrapingBeeResult(p.scrapingBee, c.extractPrice) && !p.head.FetchError? ==> r == HeadResult(p.head))
      && (r.err.Some? <==> (!c.hasScrapingBeeKey || ScrapingBeeResult(p.scrapingBee, c.extractPrice).err.Some?)
                           && p.head.FetchError? && p.proxy.FetchError?)
  {
  }

  /** Without a key the ScrapingBee fetch is never consulted. */
  lemma CheckWithoutKeyIgnoresScrapingBee(c: Checker, url: string, other: Fetch)
    requires !c.hasScrapingBeeKey
    ensures Check(c, url)
      == Check(c.(probe := u => if u == url then c.probe(url).(scrapingBee := other) else c.probe(u)), url)
  {
  }

  // ---------------------------------------------------------------------
  // What the batch does with one listing
  // ---------------------------------------------------------------------

  /** The events the health check writes: source "healthcheck", dated now. */
  function CheckEvent(l: Listing, eventType: string, price: Option<int>, previous: Option<int>, now: Time): PropertyEvent
  {
    PropertyEvent(l.propertyId, eventType, now, price, previous, "", "listing", "healthcheck", now)
  }

  function CheckPricePoint(l: Listing, amount: int, now: Time): PricePoint
  {
    PricePoint(l.propertyId, Some(l.id), PriceAskingSale, amount, "CAD", "one_time", now, "healthcheck", now)
  }

  /** What processBatch does with a stale listing. */
  datatype Action = Skip | TouchOnly | MarkGone | Reprice(price: int)

  function ActionFor(l: Listing, res: CheckResult): Action
  {
    if l.url == "" then Skip
    else if res.err.Some? then TouchOnly
    else if !res.isLive then MarkGone
    else if PriceChanged(l.price, res.currentPrice) then Reprice(res.currentPrice.value)
    else TouchOnly
  }

  /**
   * A listing without a URL is skipped; a failed check only touches it; a
   * listing found gone is delisted; a live one is repriced exactly when
   * both prices are known and differ.
   */
  lemma ActionForShape(l: Listing, res: CheckResult)
    ensures ActionFor(l, res) == Skip <==> l.url == ""
    ensures ActionFor(l, res) == MarkGone <==> l.url != "" && res.err.None? && !res.isLive
    ensures ActionFor(l, res).Reprice? <==>
      l.url != "" && res.err.None? && res.isLive && l.price.Some? && res.currentPrice.Some?
      && l.price.value != res.currentPrice.value
    ensures ActionFor(l, res).Reprice? ==> ActionFor(l, res).price == res.currentPrice.value
  {
  }

  function Touched(m: map<ListingKey, Listing>, id: Uuid, now: Time, failing: set<Op>): map<ListingKey, Listing>
  {
    if TouchListingOp in failing then m else TouchedRows(m, id, now)
  }

  /** The listings table after the action. */
  function ListingsAfter(m: map<ListingKey, Listing>, l: Listing, a: Action, failing: set<Op>, now: Time): map<ListingKey, Listing>
  {
    match a
    case Skip => m
    case TouchOnly => Touched(m, l.id, now, failing)
    case MarkGone => if UpdateListingStatusOp in failing then m else DelistAll(m, Some(l.id), now)
    case Reprice(p) =>
      Touched(if UpdateListingPriceOp in failing then m else RepricedRows(m, l.id, p, now), l.id, now, failing)
  }

  /** The events the action appends. */
  function EventsOf(l: Listing, a: Action, failing: set<Op>, now: Time): seq<PropertyEvent>
  {
    if CreateEventOp in failing then []
    else if a == MarkGone && UpdateListingStatusOp !in failing then [CheckEvent(l, EventDelisted, l.price, None, now)]
    else if a.Reprice? && UpdateListingPriceOp !in failing then [CheckEvent(l, EventPriceChange, Some(a.price), l.price, now)]
    else []
  }

  /** The price points the action appends. */
  function PricePointsOf(l: Listing, a: Action, failing: set<Op>, now: Time): seq<PricePoint>
  {
    if a.Reprice? && UpdateListingPriceOp !in failing && CreatePricePointOp !in failing
    then [CheckPricePoint(l, a.price, now)] else []
  }

  /** The links table after the action. */
  function LinksAfter(links: map<string, PropertyLink>, l: Listing, a: Action, failing: set<Op>, now: Time): map<string, PropertyLink>
  {
    if a == MarkGone && UpdateListingStatusOp !in failing && DeactivateLinksOp !in failing
    then DeactivatedLinks(links, l.id, now) else links
  }

  /** A touch changes only last_seen and updated_at, of the listing's own rows. */
  lemma TouchChangesOnlySeen(m: map<ListingKey, Listing>, l: Listing, failing: set<Op>, now: Time)
    ensures var after := ListingsAfter(m, l, TouchOnly, failing, now);
      after.Keys == m.Keys
      && forall k :: k in m ==> after[k] == (if m[k].id == l.id && TouchListingOp !in failing
                                             then m[k].(lastSeen := now, updatedAt := now) else m[k])
  {
  }

  /** A listing found gone is delisted, unless the update fails, and only its own rows change status. */
  lemma MarkGoneDelists(m: map<ListingKey, Listing>, l: Listing, failing: set<Op>, now: Time)
    requires UpdateListingStatusOp !in failing
    ensures var after := ListingsAfter(m, l, MarkGone, failing, now);
      after.Keys == m.Keys
      && (forall k :: k in m && m[k].id == l.id ==> after[k].status == StatusDelisted && after[k].delistedAt == Some(now))
      && (forall k :: k in m && m[k].id != l.id ==> after[k] == m[k])
  {
  }

  /** Each action writes at most one event, and a price point only with a reprice. */
  lemma ActionWritesAtMostOneEvent(l: Listing, a: Action, failing: set<Op>, now: Time)
    ensures |EventsOf(l, a, failing, now)| <= 1 && |PricePointsOf(l, a, failing, now)| <= 1
    ensures (a == Skip || a == TouchOnly) ==> EventsOf(l, a, failing, now) == [] && PricePointsOf(l, a, failing, now) == []
  {
  }

  // ---------------------------------------------------------------------
  // The batch as a whole
  // ---------------------------------------------------------------------

  function ActionOf(c: Checker, l: Listing): Action
  {
    ActionFor(l, Check(c, l.url))
  }

  function ListingsAfterBatch(m: map<ListingKey, Listing>, c: Checker, batch: seq<Listing>, failing: set<Op>, now: Time): map<ListingKey, Listing>
  {
    if batch == [] then m
    else
      var l := batch[|batch| - 1];
      ListingsAfter(ListingsAfterBatch(m, c, batch[..|batch| - 1], failing, now), l, ActionOf(c, l), failing, now)
  }

  function EventsOfBatch(c: Checker, batch: seq<Listing>, failing: set<Op>, now: Time): seq<PropertyEvent>
  {
    if batch == [] then []
    else
      var l := batch[|batch| - 1];
      EventsOfBatch(c, batch[..|batch| - 1], failing, now) + EventsOf(l, ActionOf(c, l), failing, now)
  }

  function PricePointsOfBatch(c: Checker, batch: seq<Listing>, failing: set<Op>, now: Time): seq<PricePoint>
  {
    if batch == [] then []
    else
      var l := batch[|batch| - 1];
      PricePointsOfBatch(c, batch[..|batch| - 1], failing, now) + PricePointsOf(l, ActionOf(c, l), failing, now)
  }

  function LinksAfterBatch(links: map<string, PropertyLink>, c: Checker, batch: seq<Listing>, failing: set<Op>, now: Time): map<string, PropertyLink>
  {
    if batch == [] then links
    else
      var l := batch[|batch| - 1];
      LinksAfter(LinksAfterBatch(links, c, batch[..|batch| - 1], failing, now), l, ActionOf(c, l), failing, now)
  }

  /** The batch's counters: listings checked, delisted and repriced. */
  datatype Counts = Counts(checked: nat, delisted: nat, priceChanges: nat)

  /**
   * `batch`, under the keys `keys`, is an answer of the stale query on `rows`:
   * stale active rows, each once, least recently seen first, at most `limit`;
   * every stale row when fewer come back, and no stale row left out is older
   * than one taken.
   */
  predicate StaleBatch(rows: map<ListingKey, Listing>, keys: seq<ListingKey>, batch: seq<Listing>,
                       staleBefore: Time, limit: int)
  {
    |keys| == |batch| <= limit
    && (forall i :: 0 <= i < |keys| ==>
          keys[i] in rows && batch[i] == rows[keys[i]] && IsStaleActive(batch[i], staleBefore))
    && (forall i, j :: 0 <= i < j < |keys| ==> keys[i] != keys[j])
    && (forall i, j :: 0 <= i < j < |batch| ==> batch[i].lastSeen <= batch[j].lastSeen)
    && (|keys| < limit ==> forall k :: k in rows && IsStaleActive(rows[k], staleBefore) ==> k in keys)
    && (forall k, i :: k in rows && IsStaleActive(rows[k], staleBefore) && k !in keys && 0 <= i < |keys| ==>
          batch[i].lastSeen <= rows[k].lastSeen)
  }

  function CountAction(n: Counts, a: Action, failing: set<Op>): Counts
  {
    Counts(n.checked + (if a != Skip then 1 else 0),
           n.delisted + (if a == MarkGone && UpdateListingStatusOp !in failing then 1 else 0),
           n.priceChanges + (if a.Reprice? && UpdateListingPriceOp !in failing then 1 else 0))
  }

  function CountsOfBatch(c: Checker, batch: seq<Listing>, failing: set<Op>): Counts
  {
    if batch == [] then Counts(0, 0, 0)
    else CountAction(CountsOfBatch(c, batch[..|batch| - 1], failing), ActionOf(c, batch[|batch| - 1]), failing)
  }

  /**
   * The state after processBatch's loop has handled `batch`, starting from
   * the tables `m0`, `ev0`, `pp0` and `lk0`.
   */
  predicate BatchDone(c: Checker, batch: seq<Listing>, failing: set<Op>, now: Time,
                      m0: map<ListingKey, Listing>, ev0: seq<PropertyEvent>, pp0: seq<PricePoint>, lk0: map<string, PropertyLink>,
                      n: Counts, m: map<ListingKey, Listing>, ev: seq<PropertyEvent>, pp: seq<PricePoint>, lk: map<string, PropertyLink>)
  {
    n == CountsOfBatch(c, batch, failing)
    && m == ListingsAfterBatch(m0, c, batch, failing, now)
    && ev == ev0 + EventsOfBatch(c, batch, failing, now)
    && pp == pp0 + PricePointsOfBatch(c, batch, failing, now)
    && lk == LinksAfterBatch(lk0, c, batch, failing, now)
  }

  /** Handling listing i after the first i keeps BatchDone. */
  lemma BatchDoneStep(c: Checker, listings: seq<Listing>, i: nat, failing: set<Op>, now: Time,
                      m0: map<ListingKey, Listing>, ev0: seq<PropertyEvent>, pp0: seq<PricePoint>, lk0: map<string, PropertyLink>,
                      n: Counts, m: map<ListingKey, Listing>, ev: seq<PropertyEvent>, pp: seq<PricePoint>, lk: map<string, PropertyLink>,
                      n': Counts, m': map<ListingKey, Listing>, ev': seq<PropertyEvent>, pp': seq<PricePoint>, lk': map<string, PropertyLink>)
    requires i < |listings| && BatchDone(c, listings[..i], failing, now, m0, ev0, pp0, lk0, n, m, ev, pp, lk)
    requires var l := listings[i];
      var a := ActionOf(c, l);
      n' == CountAction(n, a, failing)
      && m' == ListingsAfter(m, l, a, failing, now)
      && ev' == ev + EventsOf(l, a, failing, now)
      && pp' == pp + PricePointsOf(l, a, failing, now)
      && lk' == LinksAfter(lk, l, a, failing, now)
    ensures BatchDone(c, listings[..i + 1], failing, now, m0, ev0, pp0, lk0, n', m', ev', pp', lk')
  {
    var l := listings[i];
    var a := ActionOf(c, l);
    assert listings[..i + 1][..i] == listings[..i];
    EventsRegroup(ev0, EventsOfBatch(c, listings[..i], failing, now), EventsOf(l, a, failing, now));
    PricesRegroup(pp0, PricePointsOfBatch(c, listings[..i], failing, now), PricePointsOf(l, a, failing, now));
  }

  lemma EventsRegroup(x: seq<PropertyEvent>, y: seq<PropertyEvent>, z: seq<PropertyEvent>)
    ensures x + y + z == x + (y + z)
  {
  }

  lemma PricesRegroup(x: seq<PricePoint>, y: seq<PricePoint>, z: seq<PricePoint>)
    ensures x + y + z == x + (y + z)
  {
  }

  /**
   * Every listing is counted at most once: a listing is delisted or
   * repriced only if it was checked, never both, and only listings with a
   * URL are checked.
   */
  lemma {:induction false} CountsBounded(c: Checker, batch: seq<Listing>, failing: set<Op>)
    ensures var n := CountsOfBatch(c, batch, failing);
      n.delisted + n.priceChanges <= n.checked <= |batch|
    ensures CountsOfBatch(c, batch, failing).checked == |batch| - CountNoUrl(batch)
  {
    if batch != [] {
      CountsBounded(c, batch[..|batch| - 1], failing);
    }
  }

  function CountNoUrl(batch: seq<Listing>): (n: nat)
    ensures n <= |batch|
  {
    if batch == [] then 0 else CountNoUrl(batch[..|batch| - 1]) + (if batch[|batch| - 1].url == "" then 1 else 0)
  }

  /** A failed status update delists nothing and counts nothing as delisted. */
  lemma {:induction false} FailedStatusUpdateDelistsNothing(c: Checker, batch: seq<Listing>, failing: set<Op>)
    requires UpdateListingStatusOp in failing
    ensures CountsOfBatch(c, batch, failing).delisted == 0
  {
    if batch != [] {
      FailedStatusUpdateDelistsNothing(c, batch[..|batch| - 1], failing);
    }
  }

  // ---------------------------------------------------------------------
  // The services
  // ---------------------------------------------------------------------

  /** The health check service of the listing pipeline (services/healthcheck.go). */
  class HealthcheckService {
    const store: Store

    constructor (store: Store)
      ensures this.store == store
    {
      this.store := store;
    }

    /**
     * MarkDelisted: a failed status update is returned and writes no
     * event; otherwise the listing is delisted now and a delisted event
     * with its price is appended, a failure of which is only logged.
     */
    method MarkDelisted(listing: Listing, now: Time) returns (r: Result<()>)
      modifies store`listings, store`events
      ensures r.Err? <==> UpdateListingStatusOp in store.failing
      ensures r.Err? ==> store.listings == old(store.listings) && store.events == old(store.events)
      ensures r.Ok? ==> store.listings == DelistAll(old(store.listings), Some(listing.id), now)
      ensures r.Ok? ==> store.events == old(store.events) + EventsOf(listing, MarkGone, store.failing, now)
    {
      var u := store.UpdateListingStatus(listing.id, StatusDelisted, Some(now), now);
      if u.Err? {
        return Err(u.msg);
      }
      var _ := store.CreatePropertyEvent(CheckEvent(listing, EventDelisted, listing.price, None, now));
      r := Ok(());
    }

    /**
     * TouchListing: last seen and updated now, then the caller's whole copy
     * is upserted, so its status, price and delisted_at overwrite the
     * stored ones.
     */
    method TouchListing(listing: Listing, now: Time) returns (r: Result<()>)
      modifies store`listings
      ensures r.Err? <==> UpsertListingOp in store.failing
      ensures r.Err? ==> store.listings == old(store.listings)
      ensures var t := listing.(lastSeen := now, updatedAt := now);
        var k := (listing.source, listing.externalId);
        r.Ok? ==> store.listings == old(store.listings)[k :=
          if k in old(store.listings) then MergeListing(old(store.listings)[k], t, now) else t]
    {
      var u := store.UpsertListing(listing.(lastSeen := now, updatedAt := now), now);
      if u.Err? {
        return Err(u.msg);
      }
      r := Ok(());
    }
  }

  /** What TouchListing stores over an existing row: the caller's status, price and delisted_at. */
  lemma TouchOverwritesStored(stored: Listing, listing: Listing, now: Time)
    ensures var merged := MergeListing(stored, listing.(lastSeen := now, updatedAt := now), now);
      merged.status == listing.status && merged.price == listing.price
      && merged.delistedAt == listing.delistedAt && merged.lastSeen == now
      && merged.id == stored.id && merged.propertyId == stored.propertyId && merged.listedAt == stored.listedAt
  {
  }

  /** The healthcheck worker (workers/healthcheck.go). */
  class HealthcheckWorker {
    const store: Store
    const checker: Checker
    const trigger: TriggerSlot

    constructor (store: Store, checker: Checker)
      ensures this.store == store && this.checker == checker
      ensures fresh(trigger) && !trigger.pending
    {
      this.store := store;
      this.checker := checker;
      trigger := new TriggerSlot();
    }

    /** Trigger: a second trigger while one is pending is dropped. */
    method Trigger() returns (sent: bool)
      modifies trigger
      ensures trigger.pending
      ensures sent <==> !old(trigger.pending)
    {
      sent := trigger.Trigger();
    }

    /** touchListing: last_seen and updated_at now; a failure is ignored. */
    method TouchListing(listing: Listing, now: Time)
      modifies store`listings
      ensures store.listings == Touched(old(store.listings), listing.id, now, store.failing)
    {
      var _ := store.TouchListing(listing.id, now);
    }

    /**
     * recordPriceChange: only a failed price update is an error; the
     * price_change event and the price point are written when their own
     * inserts succeed.
     */
    method RecordPriceChange(listing: Listing, newPrice: int, now: Time) returns (r: Result<()>)
      modifies store`listings, store`events, store`pricePoints
      ensures r.Err? <==> UpdateListingPriceOp in store.failing
      ensures store.listings == if r.Err? then old(store.listings)
                                else RepricedRows(old(store.listings), listing.id, newPrice, now)
      ensures store.events == old(store.events) + EventsOf(listing, Reprice(newPrice), store.failing, now)
      ensures store.pricePoints == old(store.pricePoints) + PricePointsOf(listing, Reprice(newPrice), store.failing, now)
    {
      var u := store.UpdateListingPrice(listing.id, newPrice, now);
      if u.Err? {
        return Err(u.msg);
      }
      var _ := store.CreatePropertyEvent(CheckEvent(listing, EventPriceChange, Some(newPrice), listing.price, now));
      var _ := store.CreatePricePoint(CheckPricePoint(listing, newPrice, now));
      r := Ok(());
    }

    /**
     * markDelisted: a failed status update is the error; otherwise the
     * delisted event is appended when its insert succeeds and the
     * listing's links are deactivated, a failure of which is ignored.
     */
    method MarkDelisted(listing: Listing, now: Time) returns (r: Result<()>)
      modifies store`listings, store`events, store`links
      ensures r.Err? <==> UpdateListingStatusOp in store.failing
      ensures store.listings == if r.Err? then old(store.listings)
                                else DelistAll(old(store.listings), Some(listing.id), now)
      ensures store.events == old(store.events) + EventsOf(listing, MarkGone, store.failing, now)
      ensures store.links == LinksAfter(old(store.links), listing, MarkGone, store.failing, now)
    {
      var u := store.UpdateListingStatus(listing.id, StatusDelisted, Some(now), now);
      if u.Err? {
        return Err(u.msg);
      }
      var _ := store.CreatePropertyEvent(CheckEvent(listing, EventDelisted, listing.price, None, now));
      var _ := store.DeactivateLinksForListing(listing.id, now);
      r := Ok(());
    }

    /** One listing of the batch: check it and act on the result. */
    method Handle(listing: Listing, now: Time, n: Counts) returns (n': Counts)
      modifies store`listings, store`events, store`pricePoints, store`links
      ensures var a := ActionOf(checker, listing);
        n' == CountAction(n, a, store.failing)
        && store.listings == ListingsAfter(old(store.listings), listing, a, store.failing, now)
        && store.events == old(store.events) + EventsOf(listing, a, store.failing, now)
        && store.pricePoints == old(store.pricePoints) + PricePointsOf(listing, a, store.failing, now)
        && store.links == LinksAfter(old(store.links), listing, a, store.failing, now)
    {
      n' := n;
      if listing.url == "" {
        return;
      }
      var result := Check(checker, listing.url);
      n' := n'.(checked := n'.checked + 1);
      if result.err.Some? {
        TouchListing(listing, now);
        return;
      }
      if !result.isLive {
        var d := MarkDelisted(listing, now);
        if d.Ok? {
          n' := n'.(delisted := n'.delisted + 1);
        }
      } else {
        if result.currentPrice.Some? && listing.price.Some? {
          if result.currentPrice.value != listing.price.value {
            var p := RecordPriceChange(listing, result.currentPrice.value, now);
            if p.Ok? {
              n' := n'.(priceChanges := n'.priceChanges + 1);
            }
          }
        }
        TouchListing(listing, now);
      }
    }

    /**
     * processBatch: the stale active listings, least recently seen first,
     * are handled one by one. A failed query changes nothing. The counters
     * and every table written are those of the listings in order.
     */
    method ProcessBatch(staleBefore: Time, batchSize: int, now: Time)
      returns (n: Counts, ghost batch: seq<Listing>, ghost keys: seq<ListingKey>)
      modifies store`listings, store`events, store`pricePoints, store`links
      ensures !(GetStaleListingsOp in store.failing || batchSize < 0) ==>
        StaleBatch(old(store.listings), keys, batch, staleBefore, batchSize)
      ensures (GetStaleListingsOp in store.failing || batchSize < 0) ==>
        batch == [] && n == Counts(0, 0, 0) && store.listings == old(store.listings)
        && store.events == old(store.events) && store.pricePoints == old(store.pricePoints)
        && store.links == old(store.links)
      ensures forall i :: 0 <= i < |batch| ==> batch[i] in old(store.listings).Values && IsStaleActive(batch[i], staleBefore)
      ensures forall i, j :: 0 <= i < j < |batch| ==> batch[i].lastSeen <= batch[j].lastSeen
      ensures batchSize >= 0 ==> |batch| <= batchSize
      ensures n == CountsOfBatch(checker, batch, store.failing)
      ensures store.listings == ListingsAfterBatch(old(store.listings), checker, batch, store.failing, now)
      ensures store.events == old(store.events) + EventsOfBatch(checker, batch, store.failing, now)
      ensures store.pricePoints == old(store.pricePoints) + PricePointsOfBatch(checker, batch, store.failing, now)
      ensures store.links == LinksAfterBatch(old(store.links), checker, batch, store.failing, now)
    {
      n := Counts(0, 0, 0);
      var stale;
      stale, keys := store.GetStaleActiveListings(staleBefore, batchSize);
      if stale.Err? {
        return n, [], keys;
      }
      batch := stale.value;
      assert StaleBatch(store.listings, keys, batch, staleBefore, batchSize);
      assert forall i :: 0 <= i < |batch| ==> batch[i] in old(store.listings).Values by {
        forall i | 0 <= i < |batch|
          ensures batch[i] in old(store.listings).Values
        {
          assert old(store.listings)[keys[i]] == batch[i];
        }
      }
      n := HandleAll(stale.value, now);
    }

    /** The loop of processBatch over the listings it fetched. */
    method HandleAll(listings: seq<Listing>, now: Time) returns (n: Counts)
      modifies store`listings, store`events, store`pricePoints, store`links
      ensures n == CountsOfBatch(checker, listings, store.failing)
      ensures store.listings == ListingsAfterBatch(old(store.listings), checker, listings, store.failing, now)
      ensures store.events == old(store.events) + EventsOfBatch(checker, listings, store.failing, now)
      ensures store.pricePoints == old(store.pricePoints) + PricePointsOfBatch(checker, listings, store.failing, now)
      ensures store.links == LinksAfterBatch(old(store.links), checker, listings, store.failing, now)
    {
      n := Counts(0, 0, 0);
      var i := 0;
      while i < |listings|
        invariant 0 <= i <= |listings|
        invariant BatchDone(checker, listings[..i], store.failing, now, old(store.listings), old(store.events),
                            old(store.pricePoints), old(store.links), n, store.listings, store.events, store.pricePoints, store.links)
      {
        ghost var ls, ev, pp, lk, n0 := store.listings, store.events, store.pricePoints, store.links, n;
        n := Handle(listings[i], now, n);
        BatchDoneStep(checker, listings, i, store.failing, now, old(store.listings), old(store.events), old(store.pricePoints),
                      old(store.links), n0, ls, ev, pp, lk, n, store.listings, store.events, store.pricePoints, store.links);
        i := i + 1;
      }
      assert listings[..i] == listings;
    }
  }
}
