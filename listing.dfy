/**
 * The listing fan-out (services/listing.go): one scraped listing becomes a
 * property, an identifier, a listing, events, a price point, a link, queued
 * photos and the realtor's brokerage and agents.
 *
 * The service holds the store, a source of fresh ids, the hash function of
 * the fingerprint, and whether the match and media services are present.
 */
module Listings {
  import opened Util
  import opened Models
  import opened Postgres
  import opened Identity
  import opened Match
  import opened MediaService

  // ---------------------------------------------------------------------
  // Helpers: nil for zero, provinces from postal codes
  // ---------------------------------------------------------------------

  /** intPtr and float64Ptr: zero becomes nil (a NULL column). Prices are integers here. */
  function IntPtr(v: int): (r: Option<int>)
    ensures r.None? <==> v == 0
    ensures r.Some? ==> r.value == v
  {
    if v == 0 then None else Some(v)
  }

  /** The province of a postal code's first letter, either case; "" for any other character. */
  function ProvinceOfLetter(c: char): string
  {
    match c
    case 'A' | 'a' => "NL"
    case 'B' | 'b' => "NS"
    case 'C' | 'c' => "PE"
    case 'E' | 'e' => "NB"
    case 'G' | 'g' | 'H' | 'h' | 'J' | 'j' => "QC"
    case 'K' | 'k' | 'L' | 'l' | 'M' | 'm' | 'N' | 'n' | 'P' | 'p' => "ON"
    case 'R' | 'r' => "MB"
    case 'S' | 's' => "SK"
    case 'T' | 't' => "AB"
    case 'V' | 'v' => "BC"
    case 'X' | 'x' => "NT"
    case 'Y' | 'y' => "YT"
    case _ => ""
  }

  /** The letters that begin a Canadian postal code, in lower case. */
  const PostalLetters := "abceghjklmnprstvxy"

  function ProvinceFromPostalCode(postalCode: string): (p: string)
    ensures p == "" || (|p| == 2 && IsUpper(p[0]) && IsUpper(p[1]))
    ensures |postalCode| == 0 ==> p == ""
  {
    if |postalCode| == 0 then "" else ProvinceOfLetter(postalCode[0])
  }

  /** Only the first character counts, and its case does not. */
  lemma ProvinceIgnoresCase(postalCode: string)
    ensures ProvinceFromPostalCode(ToLower(postalCode)) == ProvinceFromPostalCode(postalCode)
  {
    if |postalCode| > 0 {
      assert ToLower(postalCode)[0] == LowerChar(postalCode[0]);
    }
  }

  lemma ProvinceFirstLetterOnly(postalCode: string, rest: string)
    requires |postalCode| > 0
    ensures ProvinceFromPostalCode(postalCode[..1] + rest) == ProvinceFromPostalCode(postalCode)
  {
    assert (postalCode[..1] + rest)[0] == postalCode[0];
  }

  /** A province is found exactly for the eighteen letters postal codes begin with. */
  lemma ProvinceKnownIff(postalCode: string)
    ensures ProvinceFromPostalCode(postalCode) != "" <==> |postalCode| > 0 && LowerChar(postalCode[0]) in PostalLetters
  {
  }

  // ---------------------------------------------------------------------
  // The rows the service writes
  // ---------------------------------------------------------------------

  /** The property created for a listing whose fingerprint is new. */
  function NewProperty(raw: RawListing, fingerprint: string, id: Uuid, now: Time): DomainProperty
  {
    DomainProperty(id, fingerprint, "CA", ProvinceFromPostalCode(raw.postalCode), raw.city, raw.postalCode,
                   raw.address, None, None, "", 1, 1, raw.propertyType, None, None,
                   IntPtr(raw.beds), IntPtr(raw.baths), IntPtr(raw.sqft), None, now, now)
  }

  /** The listing created for a (source, MLS number) seen for the first time. */
  function NewListing(raw: RawListing, source: string, propertyId: Uuid, id: Uuid, now: Time): Listing
  {
    Listing(id, propertyId, source, raw.mls, raw.url, "sale", StatusActive, IntPtr(raw.price), "CAD", None,
            raw.propertyType, IntPtr(raw.beds), IntPtr(raw.baths), IntPtr(raw.sqft), None, 0, 0,
            raw.description, None, raw.data, now, now, None, None, now, now)
  }

  /** A stored listing seen again: restored to active, with the scraped url, price, text and data. */
  function Resighted(stored: Listing, raw: RawListing, now: Time): Listing
  {
    stored.(url := raw.url, status := StatusActive, price := IntPtr(raw.price), description := raw.description,
            rawData := raw.data, lastSeen := now, updatedAt := now, delistedAt := None)
  }

  /** Writing a re-sighted row back changes nothing more: every COALESCE sees the stored value. */
  lemma ResightedWriteBack(stored: Listing, raw: RawListing, now: Time)
    ensures MergeListing(stored, Resighted(stored, raw, now), now) == Resighted(stored, raw, now)
  {
  }

  /** A re-sighted listing is active and not delisted, so no staleness sweep before `now` selects it. */
  lemma ResightedIsLive(stored: Listing, raw: RawListing, now: Time, staleBefore: Time)
    requires staleBefore <= now
    ensures Resighted(stored, raw, now).status == StatusActive && Resighted(stored, raw, now).delistedAt.None?
    ensures !IsStaleActive(Resighted(stored, raw, now), staleBefore)
  {
  }

  /** price_change needs a price before and after, and they differ. */
  predicate PriceChanged(previous: Option<int>, current: Option<int>)
  {
    previous.Some? && current.Some? && previous.value != current.value
  }

  function ListedEvent(propertyId: Uuid, price: Option<int>, relisted: bool, now: Time): PropertyEvent
  {
    PropertyEvent(propertyId, if relisted then EventRelisted else EventListed, now, price, None, "",
                  "listing", "scraper", now)
  }

  function PriceChangeEvent(propertyId: Uuid, price: Option<int>, previous: Option<int>, now: Time): PropertyEvent
  {
    PropertyEvent(propertyId, EventPriceChange, now, price, previous, "", "listing", "scraper", now)
  }

  function DelistedEvent(propertyId: Uuid, price: Option<int>, now: Time): PropertyEvent
  {
    PropertyEvent(propertyId, EventDelisted, now, price, None, "", "listing", "scraper", now)
  }

  /** The events a processed listing records, in order: listed or relisted, then price_change. */
  function ListingEvents(propertyId: Uuid, price: Option<int>, isNew: bool, isRelisted: bool,
                         priceChanged: bool, previous: Option<int>, now: Time): seq<PropertyEvent>
  {
    (if isNew || isRelisted then [ListedEvent(propertyId, price, isRelisted, now)] else [])
    + (if priceChanged then [PriceChangeEvent(propertyId, price, previous, now)] else [])
  }

  /**
   * A listing is new or re-sighted, never both: so it records at most one
   * event, a relisted event exactly for a relist, a listed event for any
   * other new listing, and a price_change event, carrying the old price,
   * exactly for a re-sighted listing whose price changed.
   */
  lemma ListingEventsShape(propertyId: Uuid, price: Option<int>, isNew: bool, isRelisted: bool,
                           priceChanged: bool, previous: Option<int>, now: Time)
    requires isRelisted ==> isNew
    requires !(isNew && priceChanged)
    ensures var es := ListingEvents(propertyId, price, isNew, isRelisted, priceChanged, previous, now);
      |es| == (if isNew || priceChanged then 1 else 0)
      && (forall e :: e in es ==> e.propertyId == propertyId && e.price == price && e.eventDate == now)
      && (isRelisted ==> es[0].eventType == EventRelisted)
      && (isNew && !isRelisted ==> es[0].eventType == EventListed)
      && (priceChanged ==> es[0].eventType == EventPriceChange && es[0].previousPrice == previous)
  {
  }

  function PricePointFor(propertyId: Uuid, listingId: Uuid, amount: int, now: Time): PricePoint
  {
    PricePoint(propertyId, Some(listingId), PriceAskingSale, amount, "CAD", "one_time", now, "scraper", now)
  }

  function LinkFor(propertyId: Uuid, listingId: Uuid, url: string, source: string, now: Time): PropertyLink
  {
    PropertyLink(propertyId, Some(listingId), url, source, "listing", true, true, now, now, "")
  }

  /** The links table after upserting `pl`. */
  function LinkUpserted(links: map<string, PropertyLink>, pl: PropertyLink): map<string, PropertyLink>
  {
    links[pl.url := if pl.url in links then MergeLink(links[pl.url], pl) else pl]
  }

  function PhotoParams(url: string, province: string, city: string): EnqueueParams
  {
    EnqueueParams(url, "image", CategoryListing, province, city)
  }

  function LogoParams(url: string): EnqueueParams
  {
    EnqueueParams(url, "image", CategoryBrokerage, "", "")
  }

  function HeadshotParams(url: string): EnqueueParams
  {
    EnqueueParams(url, "image", CategoryAgent, "", "")
  }

  function NewBrokerage(c: RealtorCompany, id: Uuid, logo: Option<Uuid>, now: Time): Brokerage
  {
    Brokerage(id, c.name, "", c.phone, "", "", c.address, "CA", "", "", logo, now)
  }

  /** A stored agent seen again: last seen now, and the scraped phone when there is one. */
  function SeenAgent(stored: Agent, a: RealtorAgent, now: Time): Agent
  {
    stored.(lastSeenAt := now, phone := if a.phone != "" then a.phone else stored.phone)
  }

  function NewAgent(a: RealtorAgent, id: Uuid, brokerageId: Option<Uuid>, now: Time): Agent
  {
    Agent(id, a.name, "", "", a.phone, "", brokerageId, None, now, now, now)
  }

  /**
   * A stored agent after one agent step: the seen-again row of SeenAgent,
   * except that the headshot is replaced only by a queued one (the
   * COALESCE of the upsert).
   */
  predicate AgentRefreshed(before: Agent, after: Agent, a: RealtorAgent, now: Time)
  {
    after.(headshotId := before.headshotId) == SeenAgent(before, a, now)
    && (after.headshotId != before.headshotId ==> after.headshotId.Some?)
  }

  /** The upsert of a seen-again agent, whatever headshot it carries, leaves the stored row AgentRefreshed. */
  lemma SeenMerged(stored: Agent, a: RealtorAgent, now: Time, headshot: Option<Uuid>)
    ensures var after := MergeAgent(stored, SeenAgent(stored, a, now).(headshotId := headshot));
      AgentRefreshed(stored, after, a, now) && after.lastSeenAt == now
  {
  }

  /** One more agent step keeps a stored agent AgentTouched. */
  lemma AgentTouchedAgain(a0: map<Uuid, Agent>, a1: map<Uuid, Agent>, a2: map<Uuid, Agent>, id: Uuid, a: RealtorAgent, now: Time)
    requires id in a1 && id in a2 && AgentRefreshed(a1[id], a2[id], a, now)
    requires id in a0 ==> a1[id] == a0[id] || AgentTouched(a0[id], a1[id], now)
    ensures id in a0 ==> AgentTouched(a0[id], a2[id], now)
  {
  }

  /**
   * A stored agent after any number of agent steps at `now`: last seen
   * now, with only the phone and the headshot otherwise changed, and the
   * headshot only replaced by a queued one.
   */
  predicate AgentTouched(before: Agent, after: Agent, now: Time)
  {
    after.(phone := before.phone, headshotId := before.headshotId) == before.(lastSeenAt := now)
    && (after.headshotId != before.headshotId ==> after.headshotId.Some?)
  }

  /** Every agent stored before is still stored, kept or AgentTouched at `now`. */
  predicate AgentsKept(a0: map<Uuid, Agent>, a1: map<Uuid, Agent>, now: Time)
  {
    forall id :: id in a0 ==> id in a1 && (a1[id] == a0[id] || AgentTouched(a0[id], a1[id], now))
  }

  /** The listing-agent rows stored before are kept; the only new ones are this listing's, with role "listing". */
  predicate ListingAgentsKept(la0: map<(Uuid, Uuid), string>, la1: map<(Uuid, Uuid), string>, listingId: Uuid)
  {
    (forall k :: k in la1 ==> (k in la0 && la1[k] == la0[k]) || (k.0 == listingId && la1[k] == "listing"))
    && (forall k :: k in la0 ==> k in la1)
  }

  /** `lids` are agents linked to the listing with role "listing", under the names `names`, each last seen now. */
  predicate AgentsLinked(a: map<Uuid, Agent>, la: map<(Uuid, Uuid), string>, listingId: Uuid,
                         names: seq<string>, lids: seq<Uuid>, now: Time)
  {
    |names| == |lids|
    && forall j :: 0 <= j < |lids| ==>
         lids[j] in a && a[lids[j]].fullName == names[j] && a[lids[j]].lastSeenAt == now
         && (listingId, lids[j]) in la && la[(listingId, lids[j])] == "listing"
  }

  /**
   * One agent step of the loop keeps the three facts above: `row` is the
   * agent upserted, `linked` the one linked, as ProcessAgent states them.
   */
  lemma LinkAgentStep(a0: map<Uuid, Agent>, a1: map<Uuid, Agent>, a2: map<Uuid, Agent>,
                      la0: map<(Uuid, Uuid), string>, la1: map<(Uuid, Uuid), string>, la2: map<(Uuid, Uuid), string>,
                      listingId: Uuid, a: RealtorAgent, row: Option<Uuid>, linked: Option<Uuid>,
                      names: seq<string>, lids: seq<Uuid>, now: Time)
    requires AgentsKept(a0, a1, now) && ListingAgentsKept(la0, la1, listingId)
    requires AgentsLinked(a1, la1, listingId, names, lids, now)
    requires row.None? ==> a2 == a1
    requires row.Some? ==> row.value in a2 && a2 == a1[row.value := a2[row.value]] && a2[row.value].lastSeenAt == now
    requires row.Some? && row.value in a1 ==> AgentRefreshed(a1[row.value], a2[row.value], a, now)
    requires linked.Some? ==> row == linked && a2[linked.value].fullName == a.name
    requires la2 == if linked.Some? then la1[(listingId, linked.value) := "listing"] else la1
    ensures AgentsKept(a0, a2, now) && ListingAgentsKept(la0, la2, listingId)
    ensures linked.None? ==> AgentsLinked(a2, la2, listingId, names, lids, now)
    ensures linked.Some? ==> AgentsLinked(a2, la2, listingId, names + [a.name], lids + [linked.value], now)
  {
    forall id | id in a0
      ensures id in a2 && (a2[id] == a0[id] || AgentTouched(a0[id], a2[id], now))
    {
      if row.Some? && id == row.value {
        AgentTouchedAgain(a0, a1, a2, id, a, now);
      }
    }
  }

  /** The listing row with id `delisted` marked delisted at `now`; other rows as they were. */
  function Delist(l: Listing, delisted: Option<Uuid>, now: Time): Listing
  {
    if delisted == Some(l.id) then l.(status := StatusDelisted, delistedAt := Some(now), updatedAt := now) else l
  }

  /** The listings table after UPDATE ... SET status = delisted WHERE id = `delisted`. */
  function DelistAll(m: map<ListingKey, Listing>, delisted: Option<Uuid>, now: Time): map<ListingKey, Listing>
  {
    map k | k in m :: Delist(m[k], delisted, now)
  }

  lemma DelistNothing(m: map<ListingKey, Listing>, now: Time)
    ensures DelistAll(m, None, now) == m
  {
  }

  /** A delisted row is not active: the staleness sweep and the active-listing lookup skip it. */
  lemma DelistedIsNotActive(l: Listing, now: Time, staleBefore: Time)
    ensures Delist(l, Some(l.id), now).status != StatusActive
    ensures !IsStaleActive(Delist(l, Some(l.id), now), staleBefore)
  {
  }

  // ---------------------------------------------------------------------
  // Table invariants: each row sits under its own key
  // ---------------------------------------------------------------------

  predicate PropertiesKeyed(m: map<string, DomainProperty>)
  {
    forall k :: k in m ==> m[k].fingerprint == k
  }

  predicate ListingsKeyed(m: map<ListingKey, Listing>)
  {
    forall k :: k in m ==> (m[k].source, m[k].externalId) == k
  }

  predicate BrokeragesKeyed(m: map<Uuid, Brokerage>)
  {
    forall k :: k in m ==> m[k].id == k
  }

  predicate AgentsKeyed(m: map<Uuid, Agent>)
  {
    forall k :: k in m ==> m[k].id == k
  }

  /** Brokerages and agents sit under their ids, and every id lies below the next fresh one. */
  predicate Parties(brokerages: map<Uuid, Brokerage>, agents: map<Uuid, Agent>, next: nat)
  {
    BrokeragesKeyed(brokerages) && AgentsKeyed(agents)
    && (forall id :: id in brokerages ==> id < next) && (forall id :: id in agents ==> id < next)
  }

  lemma PartiesGrow(brokerages: map<Uuid, Brokerage>, agents: map<Uuid, Agent>, next: nat, next': nat)
    requires Parties(brokerages, agents, next) && next <= next'
    ensures Parties(brokerages, agents, next')
  {
  }

  predicate HasBrokerageNamed(m: map<Uuid, Brokerage>, name: string)
  {
    exists id :: id in m && m[id].name == name
  }

  /** Some active listing of the property has another external id. */
  predicate HasOtherActive(m: map<ListingKey, Listing>, propertyId: Uuid, externalId: string)
  {
    exists k :: k in m && m[k].propertyId == propertyId && m[k].status == StatusActive && m[k].externalId != externalId
  }

  /** The property has active listings, and none of them has this external id. */
  predicate OnlyOtherActive(m: map<ListingKey, Listing>, propertyId: Uuid, externalId: string)
  {
    (exists k :: k in m && m[k].propertyId == propertyId && m[k].status == StatusActive)
    && (forall k :: k in m && m[k].propertyId == propertyId && m[k].status == StatusActive ==> m[k].externalId != externalId)
  }

  // ---------------------------------------------------------------------
  // Results and run statistics
  // ---------------------------------------------------------------------

  datatype ProcessResult = ProcessResult(
    propertyId: Uuid,
    listingId: Uuid,
    isNewProperty: bool,
    isNewListing: bool,
    isRelisted: bool,
    priceChanged: bool,
    eventsCreated: nat,
    mediaQueued: nat)

  /** What every result of ProcessListing satisfies. */
  predicate WellFormed(r: ProcessResult)
  {
    (r.isRelisted ==> r.isNewListing) && !(r.isNewListing && r.priceChanged) && r.eventsCreated <= 1
  }

  /** The property row under the fingerprint: new, or the stored one with the scraped postal code. */
  predicate PropertyResolved(before: map<string, DomainProperty>, after: map<string, DomainProperty>,
                             raw: RawListing, fp: string, propertyId: Uuid, isNew: bool, now: Time)
  {
    fp in after && after[fp].id == propertyId
    && (isNew <==> fp !in before)
    && (isNew ==> after[fp] == NewProperty(raw, fp, propertyId, now))
    && (!isNew ==> after[fp] == before[fp].(postalCode := raw.postalCode, updatedAt := now))
  }

  /** The listing row under (source, MLS number): new or re-sighted, and whether its price changed. */
  predicate ListingResolved(before: map<ListingKey, Listing>, after: map<ListingKey, Listing>,
                            raw: RawListing, source: string, propertyId: Uuid, listingId: Uuid,
                            isNew: bool, priceChanged: bool, now: Time)
  {
    var k := (source, raw.mls);
    k in after && after[k].id == listingId
    && (isNew <==> k !in before)
    && (isNew ==> after[k] == NewListing(raw, source, propertyId, listingId, now) && !priceChanged)
    && (!isNew ==>
          after[k] == Resighted(before[k], raw, now)
          && (priceChanged <==> PriceChanged(before[k].price, IntPtr(raw.price))))
  }

  /** The stored price of the listing under (source, MLS number), if any. */
  function PreviousPrice(listings: map<ListingKey, Listing>, raw: RawListing, source: string): Option<int>
  {
    if (source, raw.mls) in listings then listings[(source, raw.mls)].price else None
  }

  /** The events appended for the listing, and how many were created. */
  predicate EventsRecorded(before: seq<PropertyEvent>, after: seq<PropertyEvent>, failing: set<Op>,
                           raw: RawListing, propertyId: Uuid, isNew: bool, isRelisted: bool, priceChanged: bool,
                           previous: Option<int>, created: nat, now: Time)
  {
    var es := if CreateEventOp in failing then []
              else ListingEvents(propertyId, IntPtr(raw.price), isNew, isRelisted, priceChanged, previous, now);
    after == before + es && created == |es|
  }

  /** The asking-price point appended when the listing has a price. */
  predicate PricePointRecorded(before: seq<PricePoint>, after: seq<PricePoint>, failing: set<Op>,
                               raw: RawListing, propertyId: Uuid, listingId: Uuid, now: Time)
  {
    after == before + (if raw.price > 0 && CreatePricePointOp !in failing
                       then [PricePointFor(propertyId, listingId, raw.price, now)] else [])
  }

  /** The link to the listing's page, upserted when the listing has a URL. */
  predicate LinkRecorded(before: map<string, PropertyLink>, after: map<string, PropertyLink>, failing: set<Op>,
                         raw: RawListing, source: string, propertyId: Uuid, listingId: Uuid, now: Time)
  {
    after == if raw.url != "" && UpsertLinkOp !in failing
             then LinkUpserted(before, LinkFor(propertyId, listingId, raw.url, source, now))
             else before
  }

  /** How many photos were queued: none without the media service, all when queueing cannot fail. */
  predicate PhotosCounted(raw: RawListing, failing: set<Op>, useMedia: bool, queued: nat)
  {
    queued <= |raw.photos| && (!useMedia ==> queued == 0)
    && (useMedia && GetMediaByUrlOp !in failing && UpsertMediaOp !in failing ==> queued == |raw.photos|)
  }

  /**
   * The relist rule for the listing under (source, MLS number): every other
   * row is the old one, with the delisted listing (if any) delisted now; a
   * relist is a new listing of a property that had an active listing with
   * another MLS number, and that listing is the one delisted.
   */
  predicate Relisted(before: map<ListingKey, Listing>, after: map<ListingKey, Listing>, failing: set<Op>,
                     raw: RawListing, source: string, propertyId: Uuid, isNew: bool, isRelisted: bool,
                     delisted: Option<Uuid>, now: Time)
  {
    var k := (source, raw.mls);
    k in after && after == DelistAll(before, delisted, now)[k := after[k]]
    && (isRelisted ==> isNew && HasOtherActive(before, propertyId, raw.mls))
    && (isNew && GetActiveListingOp !in failing && OnlyOtherActive(before, propertyId, raw.mls) ==> isRelisted)
    && (delisted.Some? ==>
          isRelisted && UpdateListingStatusOp !in failing && WasOtherActive(before, delisted.value, propertyId, raw.mls))
    && (isRelisted && UpdateListingStatusOp !in failing ==> delisted.Some?)
  }

  /**
   * The listing-media rows the photo step writes: rows are only added, only
   * for this listing, none without the media service or photos, and one per
   * photo when queueing and linking cannot fail.
   */
  predicate PhotosLinked(before: map<(Uuid, Uuid), int>, after: map<(Uuid, Uuid), int>, media: map<string, Media>,
                         failing: set<Op>, useMedia: bool, listingId: Uuid, photos: seq<string>)
  {
    (forall k :: k in before ==> k in after)
    && (forall k :: k in after && k !in before ==> k.0 == listingId)
    && (!useMedia || photos == [] ==> after == before)
    && (useMedia && GetMediaByUrlOp !in failing && UpsertMediaOp !in failing && UpsertListingMediaOp !in failing ==>
          forall i :: 0 <= i < |photos| ==> photos[i] in media && (listingId, media[photos[i]].id) in after)
  }

  /** Photo links stay valid while the media table only grows. */
  lemma PhotosLinkedGrow(before: map<(Uuid, Uuid), int>, after: map<(Uuid, Uuid), int>,
                         media: map<string, Media>, media': map<string, Media>,
                         failing: set<Op>, useMedia: bool, listingId: Uuid, photos: seq<string>)
    requires PhotosLinked(before, after, media, failing, useMedia, listingId, photos) && KeepsMedia(media, media')
    ensures PhotosLinked(before, after, media', failing, useMedia, listingId, photos)
  {
  }

  /** The store failures on which the lookups, and so ProcessListing, return an error. */
  predicate LookupFails(failing: set<Op>)
  {
    GetPropertyByFingerprintOp in failing || UpsertPropertyOp in failing
    || GetListingOp in failing || UpsertListingOp in failing
  }

  /** A failed brokerage lookup, or a failed insert of a brokerage not yet stored: processRealtor's only errors. */
  predicate BrokerageFails(b: map<Uuid, Brokerage>, failing: set<Op>, name: string)
  {
    name != "" && (GetBrokerageByNameOp in failing || (!HasBrokerageNamed(b, name) && UpsertBrokerageOp in failing))
  }

  /**
   * The brokerage, agent and listing-agent rows the realtor step writes.
   * Without a realtor nothing changes. Otherwise a brokerage error changes
   * nothing; a stored brokerage is kept, a missing one added; a stored
   * agent is kept or AgentTouched at `now`; the only new links are this listing's, with role
   * "listing"; `lids` are the agents linked, under the names `names`, each
   * last seen now, and
   * when no agent step can fail every named agent is among them.
   */
  predicate RealtorRows(realtor: Option<Realtor>, failing: set<Op>, listingId: Uuid,
                        b0: map<Uuid, Brokerage>, b1: map<Uuid, Brokerage>, a0: map<Uuid, Agent>, a1: map<Uuid, Agent>,
                        la0: map<(Uuid, Uuid), string>, la1: map<(Uuid, Uuid), string>,
                        names: seq<string>, lids: seq<Uuid>, now: Time)
  {
    if realtor.None? then b1 == b0 && a1 == a0 && la1 == la0
    else
      var name := realtor.value.company.name;
      var agents := realtor.value.agents;
      (BrokerageFails(b0, failing, name) ==> b1 == b0 && a1 == a0 && la1 == la0)
      && (name != "" && GetBrokerageByNameOp !in failing && HasBrokerageNamed(b0, name) ==> b1 == b0)
      && (name != "" && !BrokerageFails(b0, failing, name) ==> HasBrokerageNamed(b1, name))
      && (forall id :: id in a0 ==> id in a1 && (a1[id] == a0[id] || AgentTouched(a0[id], a1[id], now)))
      && (forall k :: k in la1 ==> (k in la0 && la1[k] == la0[k]) || (k.0 == listingId && la1[k] == "listing"))
      && (forall k :: k in la0 ==> k in la1)
      && |names| == |lids|
      && (forall j :: 0 <= j < |lids| ==>
            lids[j] in a1 && a1[lids[j]].fullName == names[j] && a1[lids[j]].lastSeenAt == now
            && (listingId, lids[j]) in la1 && la1[(listingId, lids[j])] == "listing")
      && (!BrokerageFails(b0, failing, name) && GetAgentOp !in failing && UpsertAgentOp !in failing
          && UpsertListingAgentOp !in failing ==>
            forall i :: 0 <= i < |agents| && agents[i].name != "" ==> agents[i].name in names)
  }

  /** The outcome of the listing step. */
  datatype ListingStep = ListingStep(listing: Listing, isNew: bool, isRelisted: bool, previousPrice: Option<int>)

  /** What steps 1 to 3 found: the property, whether it is new, and the listing step. */
  datatype Located = Located(property: DomainProperty, isNewProperty: bool, step: ListingStep)

  /** Whether a re-sighted listing's price differs from the stored one. */
  predicate StepPriceChanged(step: ListingStep)
  {
    !step.isNew && PriceChanged(step.previousPrice, step.listing.price)
  }

  /**
   * What the lookups (steps 1 to 3) found, from the property table `p0` and
   * listing table `l0` before to `p1` and `l1` after: the property row, the
   * listing row and its previous price, and the relist rule.
   */
  predicate Lookups(p0: map<string, DomainProperty>, p1: map<string, DomainProperty>,
                    l0: map<ListingKey, Listing>, l1: map<ListingKey, Listing>, failing: set<Op>,
                    raw: RawListing, source: string, fp: string, l: Located, delisted: Option<Uuid>, now: Time)
  {
    PropertyResolved(p0, p1, raw, fp, l.property.id, l.isNewProperty, now)
    && ListingResolved(l0, l1, raw, source, l.property.id, l.step.listing.id, l.step.isNew, StepPriceChanged(l.step), now)
    && l.step.previousPrice == PreviousPrice(l0, raw, source)
    && (l.step.isRelisted ==> l.step.isNew)
    && Relisted(l0, l1, failing, raw, source, l.property.id, l.step.isNew, l.step.isRelisted, delisted, now)
  }

  /** The property step's and the listing step's facts, gathered into Lookups. */
  lemma LookupsOfSteps(p0: map<string, DomainProperty>, p1: map<string, DomainProperty>,
                       l0: map<ListingKey, Listing>, l1: map<ListingKey, Listing>, failing: set<Op>,
                       raw: RawListing, source: string, fp: string, property: DomainProperty, isNewProperty: bool,
                       step: ListingStep, delisted: Option<Uuid>, next: nat, now: Time)
    requires PropertyResolved(p0, p1, raw, fp, property.id, isNewProperty, now)
    requires l1 == DelistAll(l0, delisted, now)[(source, raw.mls) := step.listing]
    requires step.isNew <==> (source, raw.mls) !in l0
    requires step.isNew ==> step.listing == NewListing(raw, source, property.id, next, now) && step.previousPrice.None?
    requires !step.isNew ==>
      (source, raw.mls) in l0 && step.listing == Resighted(l0[(source, raw.mls)], raw, now)
      && step.previousPrice == l0[(source, raw.mls)].price && !step.isRelisted
    requires step.isRelisted ==> HasOtherActive(l0, property.id, raw.mls)
    requires step.isNew && GetActiveListingOp !in failing && OnlyOtherActive(l0, property.id, raw.mls) ==> step.isRelisted
    requires delisted.Some? ==> UpdateListingStatusOp !in failing && WasOtherActive(l0, delisted.value, property.id, raw.mls)
    requires step.isRelisted && UpdateListingStatusOp !in failing ==> delisted.Some?
    requires !step.isRelisted ==> delisted.None?
    ensures Lookups(p0, p1, l0, l1, failing, raw, source, fp, Located(property, isNewProperty, step), delisted, now)
  {
  }

  /**
   * Everything a successful ProcessListing did, from the tables before
   * (`…0`) to the tables after (`…1`): the property and listing rows, the
   * relist rule, the events, price point and link, the photos queued and
   * linked, and the realtor's rows.
   */
  predicate Processed(p0: map<string, DomainProperty>, p1: map<string, DomainProperty>,
                      l0: map<ListingKey, Listing>, l1: map<ListingKey, Listing>,
                      e0: seq<PropertyEvent>, e1: seq<PropertyEvent>, pp0: seq<PricePoint>, pp1: seq<PricePoint>,
                      lk0: map<string, PropertyLink>, lk1: map<string, PropertyLink>,
                      lm0: map<(Uuid, Uuid), int>, lm1: map<(Uuid, Uuid), int>, media: map<string, Media>,
                      b0: map<Uuid, Brokerage>, b1: map<Uuid, Brokerage>, a0: map<Uuid, Agent>, a1: map<Uuid, Agent>,
                      la0: map<(Uuid, Uuid), string>, la1: map<(Uuid, Uuid), string>,
                      failing: set<Op>, useMedia: bool, raw: RawListing, source: string, fp: string,
                      res: ProcessResult, delisted: Option<Uuid>, names: seq<string>, lids: seq<Uuid>, now: Time)
  {
    WellFormed(res)
    && PropertyResolved(p0, p1, raw, fp, res.propertyId, res.isNewProperty, now)
    && ListingResolved(l0, l1, raw, source, res.propertyId, res.listingId, res.isNewListing, res.priceChanged, now)
    && Relisted(l0, l1, failing, raw, source, res.propertyId, res.isNewListing, res.isRelisted, delisted, now)
    && EventsRecorded(e0, e1, failing, raw, res.propertyId, res.isNewListing, res.isRelisted, res.priceChanged,
                      PreviousPrice(l0, raw, source), res.eventsCreated, now)
    && PricePointRecorded(pp0, pp1, failing, raw, res.propertyId, res.listingId, now)
    && LinkRecorded(lk0, lk1, failing, raw, source, res.propertyId, res.listingId, now)
    && PhotosCounted(raw, failing, useMedia, res.mediaQueued)
    && PhotosLinked(lm0, lm1, media, failing, useMedia, res.listingId, raw.photos)
    && RealtorRows(raw.realtor, failing, res.listingId, b0, b1, a0, a1, la0, la1, names, lids, now)
  }

  /** What the lookups (steps 1 to 3) and the fan-out (steps 4 to 8) each establish, put together. */
  lemma ProcessedOfSteps(p0: map<string, DomainProperty>, p1: map<string, DomainProperty>,
                         l0: map<ListingKey, Listing>, l1: map<ListingKey, Listing>,
                         e0: seq<PropertyEvent>, e1: seq<PropertyEvent>, pp0: seq<PricePoint>, pp1: seq<PricePoint>,
                         lk0: map<string, PropertyLink>, lk1: map<string, PropertyLink>,
                         lm0: map<(Uuid, Uuid), int>, lm1: map<(Uuid, Uuid), int>, media: map<string, Media>,
                         b0: map<Uuid, Brokerage>, b1: map<Uuid, Brokerage>, a0: map<Uuid, Agent>, a1: map<Uuid, Agent>,
                         la0: map<(Uuid, Uuid), string>, la1: map<(Uuid, Uuid), string>,
                         failing: set<Op>, useMedia: bool, raw: RawListing, source: string, fp: string,
                         l: Located, res: ProcessResult, delisted: Option<Uuid>, names: seq<string>, lids: seq<Uuid>,
                         now: Time)
    requires Lookups(p0, p1, l0, l1, failing, raw, source, fp, l, delisted, now)
    requires res.propertyId == l.property.id && res.listingId == l.step.listing.id
    requires res.isNewProperty == l.isNewProperty && res.isNewListing == l.step.isNew
    requires res.isRelisted == l.step.isRelisted && res.priceChanged == StepPriceChanged(l.step)
    requires WellFormed(res)
    requires EventsRecorded(e0, e1, failing, raw, res.propertyId, res.isNewListing, res.isRelisted, res.priceChanged,
                            l.step.previousPrice, res.eventsCreated, now)
    requires PricePointRecorded(pp0, pp1, failing, raw, res.propertyId, res.listingId, now)
    requires LinkRecorded(lk0, lk1, failing, raw, source, res.propertyId, res.listingId, now)
    requires PhotosCounted(raw, failing, useMedia, res.mediaQueued)
    requires PhotosLinked(lm0, lm1, media, failing, useMedia, res.listingId, raw.photos)
    requires RealtorRows(raw.realtor, failing, res.listingId, b0, b1, a0, a1, la0, la1, names, lids, now)
    ensures Processed(p0, p1, l0, l1, e0, e1, pp0, pp1, lk0, lk1, lm0, lm1, media, b0, b1, a0, a1, la0, la1,
                      failing, useMedia, raw, source, fp, res, delisted, names, lids, now)
  {
  }

  /** ProcessStats: the run's counters. */
  class ProcessStats {
    var listingsProcessed: nat
    var propertiesNew: nat
    var listingsNew: nat
    var relisted: nat
    var priceChanges: nat
    var errors: nat

    /** Every counter counts a subset of the processed listings. */
    predicate Bounded()
      reads this
    {
      propertiesNew <= listingsProcessed && listingsNew <= listingsProcessed
      && relisted <= listingsProcessed && priceChanges <= listingsProcessed
    }

    /** Over results of ProcessListing: relists are new listings, and new listings never change price. */
    predicate Consistent()
      reads this
    {
      Bounded() && relisted <= listingsNew && listingsNew + priceChanges <= listingsProcessed
    }

    constructor ()
      ensures Consistent()
      ensures listingsProcessed == 0 && propertiesNew == 0 && listingsNew == 0
      ensures relisted == 0 && priceChanges == 0 && errors == 0
    {
      listingsProcessed, propertiesNew, listingsNew, relisted, priceChanges, errors := 0, 0, 0, 0, 0, 0;
    }

    /** Aggregate: one more listing, and one more of each flag the result has set. Errors is not touched. */
    method Aggregate(r: ProcessResult)
      modifies this
      ensures listingsProcessed == old(listingsProcessed) + 1
      ensures propertiesNew == old(propertiesNew) + (if r.isNewProperty then 1 else 0)
      ensures listingsNew == old(listingsNew) + (if r.isNewListing then 1 else 0)
      ensures relisted == old(relisted) + (if r.isRelisted then 1 else 0)
      ensures priceChanges == old(priceChanges) + (if r.priceChanged then 1 else 0)
      ensures errors == old(errors)
      ensures old(Bounded()) ==> Bounded()
      ensures old(Consistent()) && WellFormed(r) ==> Consistent()
    {
      listingsProcessed := listingsProcessed + 1;
      if r.isNewProperty {
        propertiesNew := propertiesNew + 1;
      }
      if r.isNewListing {
        listingsNew := listingsNew + 1;
      }
      if r.isRelisted {
        relisted := relisted + 1;
      }
      if r.priceChanged {
        priceChanges := priceChanges + 1;
      }
    }
  }

  /** HasListingWithId: some row has this id. */
  predicate HasListingWithId(m: map<ListingKey, Listing>, id: Uuid)
  {
    exists k :: k in m && m[k].id == id
  }

  /** The row with id `delisted` was an active listing of the property with another external id. */
  predicate WasOtherActive(m: map<ListingKey, Listing>, delisted: Uuid, propertyId: Uuid, externalId: string)
  {
    exists k :: k in m && m[k].id == delisted && m[k].propertyId == propertyId
      && m[k].status == StatusActive && m[k].externalId != externalId
  }

  /** Rows present before are still there and unchanged. */
  predicate KeepsMedia(before: map<string, Media>, after: map<string, Media>)
  {
    forall u :: u in before ==> u in after && after[u] == before[u]
  }

  /**
   * The value part of QueuePhotos' loop state after the first `i` photos,
   * from the media table `media0` and the link table `links0`.
   */
  ghost predicate PhotosState(media0: map<string, Media>, links0: map<(Uuid, Uuid), int>,
                              media: map<string, Media>, links: map<(Uuid, Uuid), int>, failing: set<Op>, listingId: Uuid,
                              photos: seq<string>, province: string, city: string, now: Time, i: nat, queued: nat)
  {
    queued <= i <= |photos|
    && (GetMediaByUrlOp in failing ==> queued == 0 && media == media0 && links == links0)
    && (GetMediaByUrlOp !in failing && UpsertMediaOp !in failing ==>
          queued == i && forall j :: 0 <= j < i ==> photos[j] in media)
    && KeepsMedia(media0, media)
    && (forall u :: u in media && u !in media0 ==>
          u in photos && media[u] == NewMedia(PhotoParams(u, province, city), media[u].id, now))
    && (GetMediaByUrlOp !in failing && UpsertMediaOp !in failing && UpsertListingMediaOp !in failing ==>
          forall j :: 0 <= j < i ==> (listingId, media[photos[j]].id) in links)
    && (forall k :: k in links0 ==> k in links)
    && (forall k :: k in links && k !in links0 ==> k.0 == listingId)
  }

  /**
   * One photo keeps PhotosState: `media1` is the media table after the
   * enqueue of photo `i` (with result `r`), `links1` the link table after
   * the link write that follows a successful enqueue.
   */
  lemma PhotoStep(media0: map<string, Media>, links0: map<(Uuid, Uuid), int>,
                  media: map<string, Media>, links: map<(Uuid, Uuid), int>,
                  media1: map<string, Media>, links1: map<(Uuid, Uuid), int>, failing: set<Op>, listingId: Uuid,
                  photos: seq<string>, province: string, city: string, now: Time, i: nat, queued: nat,
                  r: Result<Uuid>, queued': nat)
    requires i < |photos| && PhotosState(media0, links0, media, links, failing, listingId, photos, province, city, now, i, queued)
    requires GetMediaByUrlOp in failing ==> r.Err? && media1 == media
    requires GetMediaByUrlOp !in failing && photos[i] in media ==> r == Ok(media[photos[i]].id) && media1 == media
    requires GetMediaByUrlOp !in failing && photos[i] !in media ==>
      (r.Err? <==> UpsertMediaOp in failing)
      && (r.Err? ==> media1 == media)
      && (r.Ok? ==> media1 == media[photos[i] := NewMedia(PhotoParams(photos[i], province, city), r.value, now)])
    requires links1 == if r.Ok? && UpsertListingMediaOp !in failing then links[(listingId, r.value) := i] else links
    requires queued' == if r.Ok? then queued + 1 else queued
    ensures PhotosState(media0, links0, media1, links1, failing, listingId, photos, province, city, now, i + 1, queued')
  {
    assert KeepsMedia(media, media1);
    assert r.Ok? ==> photos[i] in media1 && media1[photos[i]].id == r.value;
    forall u | u in media1 && u !in media0
      ensures u in photos && media1[u] == NewMedia(PhotoParams(u, province, city), media1[u].id, now)
    {
      if u !in media {
        assert u == photos[i];
      }
    }
    if GetMediaByUrlOp !in failing && UpsertMediaOp !in failing && UpsertListingMediaOp !in failing {
      forall j | 0 <= j < i + 1
        ensures (listingId, media1[photos[j]].id) in links1
      {
        if j < i {
          assert media1[photos[j]] == media[photos[j]];
        }
      }
    }
  }

  /**
   * A listing processed a second time finds the property and the listing
   * the first pass stored: nothing is new, nothing is relisted, the price is
   * the one just written, so no event is created.
   */
  lemma SeenAgain(properties0: map<string, DomainProperty>, properties1: map<string, DomainProperty>,
                  properties2: map<string, DomainProperty>,
                  listings0: map<ListingKey, Listing>, listings1: map<ListingKey, Listing>,
                  listings2: map<ListingKey, Listing>,
                  events1: seq<PropertyEvent>, events2: seq<PropertyEvent>, failing: set<Op>,
                  raw: RawListing, source: string, fp: string, res1: ProcessResult, res2: ProcessResult,
                  now1: Time, now2: Time)
    requires PropertyResolved(properties0, properties1, raw, fp, res1.propertyId, res1.isNewProperty, now1)
    requires PropertyResolved(properties1, properties2, raw, fp, res2.propertyId, res2.isNewProperty, now2)
    requires ListingResolved(listings0, listings1, raw, source, res1.propertyId, res1.listingId,
                             res1.isNewListing, res1.priceChanged, now1)
    requires ListingResolved(listings1, listings2, raw, source, res2.propertyId, res2.listingId,
                             res2.isNewListing, res2.priceChanged, now2)
    requires WellFormed(res2)
    requires EventsRecorded(events1, events2, failing, raw, res2.propertyId, res2.isNewListing, res2.isRelisted,
                            res2.priceChanged, PreviousPrice(listings1, raw, source), res2.eventsCreated, now2)
    ensures !res2.isNewProperty && !res2.isNewListing && !res2.isRelisted && !res2.priceChanged
    ensures res2.eventsCreated == 0 && events2 == events1
    ensures res2.propertyId == res1.propertyId && res2.listingId == res1.listingId
  {
    var k := (source, raw.mls);
    assert listings1[k].price == IntPtr(raw.price);
  }

  /** The service. `useMatch` and `useMedia` say whether the match and media services are set. */
  class ListingService {
    const store: Store
    const ids: IdSource
    const sha256: string -> Digest
    const useMatch: bool
    const useMedia: bool

    /** Every row sits under its own key, and fresh ids lie above every brokerage and agent id. */
    predicate Valid()
      reads store`properties, store`listings, store`brokerages, store`agents, ids
    {
      ids.Valid() && PropertiesKeyed(store.properties) && ListingsKeyed(store.listings)
      && Parties(store.brokerages, store.agents, ids.next)
    }

    constructor (store: Store, ids: IdSource, sha256: string -> Digest, useMatch: bool, useMedia: bool)
      ensures this.store == store && this.ids == ids && this.sha256 == sha256
      ensures this.useMatch == useMatch && this.useMedia == useMedia
    {
      this.store := store;
      this.ids := ids;
      this.sha256 := sha256;
      this.useMatch := useMatch;
      this.useMedia := useMedia;
    }

    /**
     * Step 1: the property with this fingerprint, created when there is none
     * (and then matched against the other properties), or its stored row with
     * the scraped postal code. The id is the stored row's id.
     */
    method ResolveProperty(raw: RawListing, fp: string, now: Time)
      returns (r: Result<DomainProperty>, isNew: bool, ghost candidates: seq<DomainProperty>)
      requires ids.Valid() && PropertiesKeyed(store.properties)
      modifies store`properties, store`matches, ids
      ensures ids.Valid() && PropertiesKeyed(store.properties) && old(ids.next) <= ids.next
      ensures r.Err? <==> GetPropertyByFingerprintOp in store.failing || UpsertPropertyOp in store.failing
      ensures r.Err? ==> store.properties == old(store.properties) && store.matches == old(store.matches)
      ensures r.Ok? ==> (isNew <==> fp !in old(store.properties)) && store.properties == old(store.properties)[fp := r.value]
      ensures r.Ok? && isNew ==> r.value == NewProperty(raw, fp, old(ids.next), now)
      ensures r.Ok? && !isNew ==> r.value == old(store.properties)[fp].(postalCode := raw.postalCode, updatedAt := now)
      ensures !(r.Ok? && isNew && useMatch) ==> store.matches == old(store.matches)
      ensures KeepsRows(old(store.matches), store.matches)
      ensures r.Ok? ==> NewRowsFrom(old(store.matches), store.matches, candidates, r.value.id, MatchScorer(r.value), now)
    {
      candidates := [];
      isNew := false;
      var existing := store.GetPropertyByFingerprint(fp);
      if existing.Err? {
        return Err(existing.msg), isNew, candidates;
      }
      if existing.value.None? {
        r, candidates := CreateProperty(raw, fp, now);
        isNew := r.Ok?;
      } else {
        r := RefreshProperty(existing.value.value, raw, fp, now);
      }
    }

    /** A fingerprint seen for the first time: the new property, then the match scoring. */
    method CreateProperty(raw: RawListing, fp: string, now: Time)
      returns (r: Result<DomainProperty>, ghost candidates: seq<DomainProperty>)
      requires ids.Valid() && PropertiesKeyed(store.properties) && fp !in store.properties
      modifies store`properties, store`matches, ids
      ensures ids.Valid() && PropertiesKeyed(store.properties) && old(ids.next) <= ids.next
      ensures r.Err? <==> UpsertPropertyOp in store.failing
      ensures r.Err? ==> store.properties == old(store.properties) && store.matches == old(store.matches)
      ensures r.Ok? ==> r.value == NewProperty(raw, fp, old(ids.next), now) && store.properties == old(store.properties)[fp := r.value]
      ensures !(r.Ok? && useMatch) ==> store.matches == old(store.matches)
      ensures KeepsRows(old(store.matches), store.matches)
      ensures r.Ok? ==> NewRowsFrom(old(store.matches), store.matches, candidates, r.value.id, MatchScorer(r.value), now)
    {
      candidates := [];
      var id := ids.New();
      var property := NewProperty(raw, fp, id, now);
      var u := store.UpsertProperty(property, now);
      if u.Err? {
        r := Err(u.msg);
      } else {
        assert store.properties == old(store.properties)[fp := property];
        if useMatch {
          ghost var props := store.properties;
          candidates := ScoreMatches(property, now);
          assert store.properties == props;
        } else {
          NoNewRows(store.matches, candidates, property.id, MatchScorer(property), now);
        }
        r := Ok(property);
      }
    }

    /** The match scoring of a new property; its count and error are only logged. */
    method ScoreMatches(property: DomainProperty, now: Time) returns (ghost candidates: seq<DomainProperty>)
      modifies store`matches
      ensures KeepsRows(old(store.matches), store.matches)
      ensures NewRowsFrom(old(store.matches), store.matches, candidates, property.id, MatchScorer(property), now)
    {
      var count, m;
      ghost var keys;
      count, m, candidates, keys := InsertPotentialMatches(store, property, now);
    }

    /** A fingerprint already stored: its row written back with the scraped postal code. */
    method RefreshProperty(stored: DomainProperty, raw: RawListing, fp: string, now: Time) returns (r: Result<DomainProperty>)
      requires PropertiesKeyed(store.properties) && fp in store.properties && store.properties[fp] == stored
      modifies store`properties
      ensures PropertiesKeyed(store.properties)
      ensures r.Err? <==> UpsertPropertyOp in store.failing
      ensures r.Err? ==> store.properties == old(store.properties)
      ensures r.Ok? ==> r.value == stored.(postalCode := raw.postalCode, updatedAt := now)
                        && store.properties == old(store.properties)[fp := r.value]
    {
      var property := stored.(postalCode := raw.postalCode, updatedAt := now);
      var u := store.UpsertProperty(property, now);
      if u.Err? {
        return Err(u.msg);
      }
      MergePropertyWithItself(stored, raw.postalCode, now, now);
      r := Ok(property.(id := u.value));
    }

    /**
     * The relist check: when the property has an active listing (any one of
     * them) with another external id, that listing is delisted and the new
     * one is a relist. A failed lookup counts as no listing; a failed update
     * is only logged.
     */
    method DelistPrevious(propertyId: Uuid, externalId: string, now: Time)
      returns (isRelisted: bool, ghost delisted: Option<Uuid>)
      modifies store`listings
      ensures store.listings == DelistAll(old(store.listings), delisted, now)
      ensures isRelisted ==> HasOtherActive(old(store.listings), propertyId, externalId)
      ensures GetActiveListingOp !in store.failing && OnlyOtherActive(old(store.listings), propertyId, externalId) ==> isRelisted
      ensures delisted.Some? ==>
        UpdateListingStatusOp !in store.failing && WasOtherActive(old(store.listings), delisted.value, propertyId, externalId)
      ensures isRelisted && UpdateListingStatusOp !in store.failing ==> delisted.Some?
      ensures !isRelisted ==> delisted.None?
    {
      isRelisted, delisted := false, None;
      var prev := store.GetActiveListingForProperty(propertyId);
      if prev.Ok? && prev.value.Some? && prev.value.value.externalId != externalId {
        var d := store.UpdateListingStatus(prev.value.value.id, StatusDelisted, Some(now), now);
        if d.Ok? {
          delisted := Some(prev.value.value.id);
        }
        isRelisted := true;
      }
    }

    /** A listing not stored yet: the relist check, then the insert with a fresh id. */
    method CreateListing(raw: RawListing, source: string, property: DomainProperty, now: Time)
      returns (r: Result<ListingStep>, ghost delisted: Option<Uuid>)
      requires ids.Valid() && ListingsKeyed(store.listings) && (source, raw.mls) !in store.listings
      modifies store`listings, ids
      ensures ids.Valid() && ListingsKeyed(store.listings) && old(ids.next) <= ids.next
      ensures r.Err? <==> UpsertListingOp in store.failing
      ensures r.Err? ==> store.listings == DelistAll(old(store.listings), delisted, now)
      ensures r.Ok? ==>
        r.value == ListingStep(NewListing(raw, source, property.id, old(ids.next), now), true, r.value.isRelisted, None)
        && store.listings == DelistAll(old(store.listings), delisted, now)[(source, raw.mls) := r.value.listing]
      ensures r.Ok? && r.value.isRelisted ==> HasOtherActive(old(store.listings), property.id, raw.mls)
      ensures (r.Ok? && GetActiveListingOp !in store.failing
               && OnlyOtherActive(old(store.listings), property.id, raw.mls)) ==> r.value.isRelisted
      ensures delisted.Some? ==>
        UpdateListingStatusOp !in store.failing && WasOtherActive(old(store.listings), delisted.value, property.id, raw.mls)
      ensures r.Ok? && r.value.isRelisted && UpdateListingStatusOp !in store.failing ==> delisted.Some?
      ensures r.Ok? && !r.value.isRelisted ==> delisted.None?
    {
      var isRelisted;
      isRelisted, delisted := DelistPrevious(property.id, raw.mls, now);
      var id := ids.New();
      var listing := NewListing(raw, source, property.id, id, now);
      var u := store.UpsertListing(listing, now);
      if u.Err? {
        return Err(u.msg), delisted;
      }
      r := Ok(ListingStep(listing.(id := u.value), true, isRelisted, None));
    }

    /**
     * Step 3: the listing under (source, MLS number), re-sighted when stored,
     * created otherwise. A new listing of a property that has an active
     * listing with another MLS number is a relist, and that other listing is
     * delisted first (a failure there is only logged).
     */
    method ResolveListing(raw: RawListing, source: string, property: DomainProperty, now: Time)
      returns (r: Result<ListingStep>, ghost delisted: Option<Uuid>)
      requires ids.Valid() && ListingsKeyed(store.listings)
      modifies store`listings, ids
      ensures ids.Valid() && ListingsKeyed(store.listings) && old(ids.next) <= ids.next
      ensures r.Err? <==> GetListingOp in store.failing || UpsertListingOp in store.failing
      ensures r.Err? ==> store.listings == DelistAll(old(store.listings), delisted, now)
      ensures r.Ok? ==>
        store.listings == DelistAll(old(store.listings), delisted, now)[(source, raw.mls) := r.value.listing]
        && (r.value.isNew <==> (source, raw.mls) !in old(store.listings))
      ensures r.Ok? && r.value.isNew ==>
        r.value.listing == NewListing(raw, source, property.id, old(ids.next), now) && r.value.previousPrice.None?
      ensures var k := (source, raw.mls);
        r.Ok? && !r.value.isNew ==>
          k in old(store.listings) && r.value.listing == Resighted(old(store.listings)[k], raw, now)
          && r.value.previousPrice == old(store.listings)[k].price && !r.value.isRelisted
      ensures r.Ok? && r.value.isRelisted ==> HasOtherActive(old(store.listings), property.id, raw.mls)
      ensures (r.Ok? && r.value.isNew && GetActiveListingOp !in store.failing
               && OnlyOtherActive(old(store.listings), property.id, raw.mls)) ==> r.value.isRelisted
      ensures delisted.Some? ==>
        UpdateListingStatusOp !in store.failing && WasOtherActive(old(store.listings), delisted.value, property.id, raw.mls)
      ensures r.Ok? && r.value.isRelisted && UpdateListingStatusOp !in store.failing ==> delisted.Some?
      ensures r.Ok? && !r.value.isRelisted ==> delisted.None?
    {
      delisted := None;
      DelistNothing(store.listings, now);
      var existing := store.GetListingBySourceAndExternalId(source, raw.mls);
      if existing.Err? {
        return Err(existing.msg), delisted;
      }
      if existing.value.None? {
        r, delisted := CreateListing(raw, source, property, now);
      } else {
        var stored := existing.value.value;
        var listing := Resighted(stored, raw, now);
        var u := store.UpsertListing(listing, now);
        if u.Err? {
          return Err(u.msg), delisted;
        }
        ResightedWriteBack(stored, raw, now);
        r := Ok(ListingStep(listing.(id := u.value), false, false, stored.price));
      }
    }

    /** Step 4: the listed or relisted event, then the price_change event; each failure is only logged. */
    method RecordEvents(propertyId: Uuid, price: Option<int>, isNew: bool, isRelisted: bool,
                        priceChanged: bool, previous: Option<int>, now: Time) returns (created: nat)
      modifies store`events
      ensures var es := if CreateEventOp in store.failing then []
                        else ListingEvents(propertyId, price, isNew, isRelisted, priceChanged, previous, now);
        store.events == old(store.events) + es && created == |es|
    {
      created := 0;
      if isNew || isRelisted {
        var e := store.CreatePropertyEvent(ListedEvent(propertyId, price, isRelisted, now));
        if e.Ok? {
          created := created + 1;
        }
      }
      if priceChanged {
        var e := store.CreatePropertyEvent(PriceChangeEvent(propertyId, price, previous, now));
        if e.Ok? {
          created := created + 1;
        }
      }
    }

    /**
     * Step 7: every photo is queued under the property's province and city
     * and linked to the listing at its position. A photo that cannot be
     * queued is skipped; a link that fails is only logged.
     */
    method QueuePhotos(listingId: Uuid, photos: seq<string>, province: string, city: string, now: Time)
      returns (queued: nat)
      requires ids.Valid()
      modifies store`media, store`listingMedia, ids
      ensures ids.Valid() && old(ids.next) <= ids.next
      ensures queued <= |photos|
      ensures GetMediaByUrlOp in store.failing ==>
        queued == 0 && store.media == old(store.media) && store.listingMedia == old(store.listingMedia)
      ensures GetMediaByUrlOp !in store.failing && UpsertMediaOp !in store.failing ==>
        queued == |photos| && forall i :: 0 <= i < |photos| ==> photos[i] in store.media
      ensures KeepsMedia(old(store.media), store.media)
      ensures forall u :: u in store.media && u !in old(store.media) ==>
        u in photos && store.media[u] == NewMedia(PhotoParams(u, province, city), store.media[u].id, now)
      ensures GetMediaByUrlOp !in store.failing && UpsertMediaOp !in store.failing && UpsertListingMediaOp !in store.failing ==>
        forall i :: 0 <= i < |photos| ==> (listingId, store.media[photos[i]].id) in store.listingMedia
      ensures forall k :: k in old(store.listingMedia) ==> k in store.listingMedia
      ensures forall k :: k in store.listingMedia && k !in old(store.listingMedia) ==> k.0 == listingId
    {
      queued := 0;
      for i := 0 to |photos|
        invariant PhotosProgress(old(store.media), old(store.listingMedia), old(ids.next), listingId, photos, province, city,
                                 now, i, queued)
      {
        queued := QueuePhotoAt(old(store.media), old(store.listingMedia), old(ids.next), listingId, photos, province, city,
                               now, i, queued);
      }
    }

    /**
     * The state of QueuePhotos after the first `i` photos, starting from the
     * tables `media0` and `links0` and the id counter `next0`.
     */
    ghost predicate PhotosProgress(media0: map<string, Media>, links0: map<(Uuid, Uuid), int>, next0: nat, listingId: Uuid,
                                   photos: seq<string>, province: string, city: string, now: Time, i: nat, queued: nat)
      reads store, ids
    {
      ids.Valid() && next0 <= ids.next
      && PhotosState(media0, links0, store.media, store.listingMedia, store.failing, listingId, photos, province, city, now, i, queued)
    }

    /** One photo of QueuePhotos: enqueued, then linked at its position. */
    method QueuePhotoAt(ghost media0: map<string, Media>, ghost links0: map<(Uuid, Uuid), int>, ghost next0: nat, listingId: Uuid,
                        photos: seq<string>, province: string, city: string, now: Time, i: nat, queued: nat)
      returns (queued': nat)
      requires i < |photos| && PhotosProgress(media0, links0, next0, listingId, photos, province, city, now, i, queued)
      modifies store`media, store`listingMedia, ids
      ensures PhotosProgress(media0, links0, next0, listingId, photos, province, city, now, i + 1, queued')
    {
      queued' := queued;
      ghost var mid, links := store.media, store.listingMedia;
      var m := Enqueue(store, ids, PhotoParams(photos[i], province, city), now);
      ghost var media1 := store.media;
      if m.Ok? {
        var _ := store.UpsertListingMedia(listingId, m.value, i);
        queued' := queued + 1;
      }
      PhotoStep(media0, links0, mid, links, media1, store.listingMedia, store.failing, listingId, photos, province, city, now,
                i, queued, m, queued');
    }

    /**
     * The brokerage step of processRealtor: found by name, or created with a
     * fresh id and its logo queued. For a found brokerage without a logo the
     * logo is queued and the row written back, but the upsert does not write
     * logo_id, so the stored row stays as it was.
     */
    method ResolveBrokerage(c: RealtorCompany, now: Time) returns (r: Result<Option<Uuid>>, ghost logo: Option<Uuid>)
      requires ids.Valid() && Parties(store.brokerages, store.agents, ids.next)
      modifies store`brokerages, store`media, ids
      ensures ids.Valid() && Parties(store.brokerages, store.agents, ids.next) && old(ids.next) <= ids.next
      ensures c.name == "" ==> r == Ok(None) && store.brokerages == old(store.brokerages) && store.media == old(store.media)
      ensures c.name != "" ==>
        (r.Err? <==> GetBrokerageByNameOp in store.failing
                     || (!HasBrokerageNamed(old(store.brokerages), c.name) && UpsertBrokerageOp in store.failing))
      ensures r.Err? ==> store.brokerages == old(store.brokerages)
      ensures c.name != "" && r.Ok? ==>
        r.value.Some? && r.value.value in store.brokerages && store.brokerages[r.value.value].name == c.name
      ensures c.name != "" && GetBrokerageByNameOp !in store.failing && HasBrokerageNamed(old(store.brokerages), c.name) ==>
        store.brokerages == old(store.brokerages)
      ensures c.name != "" && r.Ok? && !HasBrokerageNamed(old(store.brokerages), c.name) ==>
        r.value == Some(old(ids.next))
        && store.brokerages == old(store.brokerages)[old(ids.next) := NewBrokerage(c, old(ids.next), logo, now)]
      ensures logo.Some? ==> useMedia && c.logo in store.media && store.media[c.logo].id == logo.value
      ensures (c.name != "" && GetBrokerageByNameOp !in store.failing && !HasBrokerageNamed(old(store.brokerages), c.name)
               && useMedia && c.logo != "" && GetMediaByUrlOp !in store.failing && UpsertMediaOp !in store.failing) ==> logo.Some?
      ensures KeepsMedia(old(store.media), store.media)
      ensures forall u :: u in store.media && u !in old(store.media) ==>
        u == c.logo && store.media[u] == NewMedia(LogoParams(u), store.media[u].id, now)
    {
      logo := None;
      if c.name == "" {
        return Ok(None), logo;
      }
      var existing := store.GetBrokerageByName(c.name);
      if existing.Err? {
        return Err(existing.msg), logo;
      }
      if existing.value.Some? {
        var b := existing.value.value;
        assert b.id in store.brokerages && store.brokerages[b.id] == b;
        AddBrokerageLogo(b, c.logo, now);
        r := Ok(Some(b.id));
      } else {
        r, logo := CreateBrokerage(c, now);
      }
    }

    /**
     * A stored brokerage without a logo gets the scraped one enqueued; the
     * upsert that would record it leaves the row as it was.
     */
    method AddBrokerageLogo(b: Brokerage, logoUrl: string, now: Time)
      requires ids.Valid() && Parties(store.brokerages, store.agents, ids.next)
      requires b.id in store.brokerages && store.brokerages[b.id] == b
      modifies store`brokerages, store`media, ids
      ensures ids.Valid() && Parties(store.brokerages, store.agents, ids.next) && old(ids.next) <= ids.next
      ensures store.brokerages == old(store.brokerages)
      ensures KeepsMedia(old(store.media), store.media)
      ensures forall u :: u in store.media && u !in old(store.media) ==>
        u == logoUrl && store.media[u] == NewMedia(LogoParams(u), store.media[u].id, now)
    {
      if b.logoId.None? && useMedia && logoUrl != "" {
        var m := Enqueue(store, ids, LogoParams(logoUrl), now);
        if m.Ok? {
          var _ := store.UpsertBrokerage(b.(logoId := Some(m.value)));
          assert store.brokerages == old(store.brokerages);
        }
      }
    }

    /** A brokerage not stored yet: a fresh id, its logo enqueued, then the insert. */
    method CreateBrokerage(c: RealtorCompany, now: Time) returns (r: Result<Option<Uuid>>, ghost logo: Option<Uuid>)
      requires ids.Valid() && Parties(store.brokerages, store.agents, ids.next)
      modifies store`brokerages, store`media, ids
      ensures ids.Valid() && Parties(store.brokerages, store.agents, ids.next) && old(ids.next) <= ids.next
      ensures r.Err? <==> UpsertBrokerageOp in store.failing
      ensures r.Err? ==> store.brokerages == old(store.brokerages)
      ensures r.Ok? ==>
        r.value == Some(old(ids.next))
        && store.brokerages == old(store.brokerages)[old(ids.next) := NewBrokerage(c, old(ids.next), logo, now)]
      ensures logo.Some? ==> useMedia && c.logo in store.media && store.media[c.logo].id == logo.value
      ensures useMedia && c.logo != "" && GetMediaByUrlOp !in store.failing && UpsertMediaOp !in store.failing ==> logo.Some?
      ensures KeepsMedia(old(store.media), store.media)
      ensures forall u :: u in store.media && u !in old(store.media) ==>
        u == c.logo && store.media[u] == NewMedia(LogoParams(u), store.media[u].id, now)
    {
      var id := ids.New();
      var l: Option<Uuid> := None;
      if useMedia && c.logo != "" {
        var m := Enqueue(store, ids, LogoParams(c.logo), now);
        if m.Ok? {
          l := Some(m.value);
        }
      }
      logo := l;
      var b := NewBrokerage(c, id, l, now);
      var u := store.UpsertBrokerage(b);
      if u.Err? {
        return Err(u.msg), logo;
      }
      r := Ok(Some(b.id));
    }

    /**
     * The agent row to write: the agent stored under this name and brokerage
     * seen again, or a new agent with a fresh id.
     */
    method AgentRow(a: RealtorAgent, brokerageId: Option<Uuid>, now: Time) returns (r: Result<Agent>, isNew: bool)
      requires ids.Valid() && Parties(store.brokerages, store.agents, ids.next) && a.name != ""
      modifies ids
      ensures ids.Valid() && Parties(store.brokerages, store.agents, ids.next) && old(ids.next) <= ids.next
      ensures r.Err? <==> GetAgentOp in store.failing
      ensures r.Ok? ==> r.value.id < ids.next
      ensures r.Ok? && !isNew ==>
        r.value.id in store.agents && store.agents[r.value.id].fullName == a.name
        && r.value == SeenAgent(store.agents[r.value.id], a, now)
      ensures r.Ok? && isNew ==> r.value == NewAgent(a, old(ids.next), brokerageId, now) && r.value.id !in store.agents
    {
      isNew := false;
      var existing := store.GetAgentByNameAndBrokerage(a.name, brokerageId);
      if existing.Err? {
        return Err(existing.msg), isNew;
      }
      if existing.value.Some? {
        var stored := existing.value.value;
        assert stored.id in store.agents && store.agents[stored.id] == stored;
        r := Ok(SeenAgent(stored, a, now));
      } else {
        var id := ids.New();
        isNew := true;
        r := Ok(NewAgent(a, id, brokerageId, now));
      }
    }

    /** The agent's photo, when the media service is set, queued as its headshot. */
    method WithHeadshot(agent: Agent, photo: string, now: Time) returns (r: Agent)
      requires ids.Valid()
      modifies store`media, ids
      ensures ids.Valid() && old(ids.next) <= ids.next
      ensures r == agent.(headshotId := r.headshotId)
      ensures GetMediaByUrlOp in store.failing ==> r == agent && store.media == old(store.media)
      ensures KeepsMedia(old(store.media), store.media)
      ensures forall u :: u in store.media && u !in old(store.media) ==>
        u == photo && store.media[u] == NewMedia(HeadshotParams(u), store.media[u].id, now)
    {
      r := agent;
      if useMedia && photo != "" {
        var m := Enqueue(store, ids, HeadshotParams(photo), now);
        if m.Ok? {
          r := agent.(headshotId := Some(m.value));
        }
      }
    }

    /**
     * One agent of processRealtor: found by name and brokerage and seen
     * again, or created; its headshot queued; upserted; linked to the
     * listing. Each failure skips the rest of this agent.
     */
    method ProcessAgent(a: RealtorAgent, brokerageId: Option<Uuid>, listingId: Uuid, now: Time)
      returns (linked: Option<Uuid>, ghost row: Option<Uuid>)
      requires ids.Valid() && Parties(store.brokerages, store.agents, ids.next) && a.name != ""
      modifies store`agents, store`listingAgents, store`media, ids
      ensures ids.Valid() && Parties(store.brokerages, store.agents, ids.next) && old(ids.next) <= ids.next
      ensures row.Some? <==> GetAgentOp !in store.failing && UpsertAgentOp !in store.failing
      ensures row.None? ==> store.agents == old(store.agents)
      ensures row.Some? ==>
        row.value in store.agents && store.agents == old(store.agents)[row.value := store.agents[row.value]]
        && store.agents[row.value].lastSeenAt == now
      ensures row.Some? && row.value in old(store.agents) ==>
        AgentRefreshed(old(store.agents)[row.value], store.agents[row.value], a, now)
      ensures row.Some? && row.value !in old(store.agents) ==>
        store.agents[row.value] == NewAgent(a, row.value, brokerageId, now).(headshotId := store.agents[row.value].headshotId)
      ensures linked.Some? ==> row == linked
      ensures forall id :: id in old(store.agents) ==>
        id in store.agents && store.agents[id].fullName == old(store.agents)[id].fullName
      ensures forall id :: id in store.agents && id !in old(store.agents) ==>
        store.agents[id].fullName == a.name && store.agents[id].brokerageId == brokerageId
        && store.agents[id].firstSeenAt == now && store.agents[id].lastSeenAt == now
      ensures linked.Some? ==> linked.value in store.agents && store.agents[linked.value].fullName == a.name
      ensures store.listingAgents ==
        if linked.Some? then old(store.listingAgents)[(listingId, linked.value) := "listing"] else old(store.listingAgents)
      ensures GetAgentOp !in store.failing && UpsertAgentOp !in store.failing && UpsertListingAgentOp !in store.failing ==>
        linked.Some?
      ensures GetAgentOp in store.failing ==>
        linked.None? && store.agents == old(store.agents) && store.media == old(store.media)
      ensures KeepsMedia(old(store.media), store.media)
      ensures forall u :: u in store.media && u !in old(store.media) ==>
        u == a.photo && store.media[u] == NewMedia(HeadshotParams(u), store.media[u].id, now)
    {
      linked, row := None, None;
      var found, isNew := AgentRow(a, brokerageId, now);
      if found.Err? {
        return;
      }
      ghost var next := ids.next;
      var agent := WithHeadshot(found.value, a.photo, now);
      PartiesGrow(store.brokerages, store.agents, next, ids.next);
      if !isNew {
        SeenMerged(store.agents[agent.id], a, now, agent.headshotId);
      }
      var u := store.UpsertAgent(agent);
      if u.Err? {
        return;
      }
      row := Some(agent.id);
      var la := store.UpsertListingAgent(listingId, agent.id, "listing");
      if la.Ok? {
        linked := Some(agent.id);
      }
    }

    /**
     * The agent loop of processRealtor: each named agent is processed in
     * turn, and those that end up linked are recorded in order.
     */
    method LinkAgents(agents: seq<RealtorAgent>, brokerageId: Option<Uuid>, listingId: Uuid, now: Time)
      returns (linkedNames: seq<string>, linkedIds: seq<Uuid>)
      requires ids.Valid() && Parties(store.brokerages, store.agents, ids.next)
      modifies store`agents, store`listingAgents, store`media, ids
      ensures ids.Valid() && Parties(store.brokerages, store.agents, ids.next) && old(ids.next) <= ids.next
      ensures AgentsKept(old(store.agents), store.agents, now)
      ensures ListingAgentsKept(old(store.listingAgents), store.listingAgents, listingId)
      ensures AgentsLinked(store.agents, store.listingAgents, listingId, linkedNames, linkedIds, now)
      ensures GetAgentOp !in store.failing && UpsertAgentOp !in store.failing && UpsertListingAgentOp !in store.failing ==>
        forall i :: 0 <= i < |agents| && agents[i].name != "" ==> agents[i].name in linkedNames
      ensures KeepsMedia(old(store.media), store.media)
    {
      linkedNames, linkedIds := [], [];
      for i := 0 to |agents|
        invariant ids.Valid() && Parties(store.brokerages, store.agents, ids.next) && old(ids.next) <= ids.next
        invariant AgentsKept(old(store.agents), store.agents, now)
        invariant ListingAgentsKept(old(store.listingAgents), store.listingAgents, listingId)
        invariant AgentsLinked(store.agents, store.listingAgents, listingId, linkedNames, linkedIds, now)
        invariant GetAgentOp !in store.failing && UpsertAgentOp !in store.failing && UpsertListingAgentOp !in store.failing ==>
          forall j :: 0 <= j < i && agents[j].name != "" ==> agents[j].name in linkedNames
        invariant KeepsMedia(old(store.media), store.media)
      {
        if agents[i].name == "" {
          continue;
        }
        ghost var agents1, links1 := store.agents, store.listingAgents;
        var linked;
        ghost var row;
        linked, row := ProcessAgent(agents[i], brokerageId, listingId, now);
        LinkAgentStep(old(store.agents), agents1, store.agents, old(store.listingAgents), links1, store.listingAgents,
                      listingId, agents[i], row, linked, linkedNames, linkedIds, now);
        if linked.Some? {
          linkedNames, linkedIds := linkedNames + [agents[i].name], linkedIds + [linked.value];
        }
      }
    }

    /**
     * processRealtor: the brokerage, then each named agent. Only a failed
     * brokerage lookup or a failed insert of a new brokerage is an error;
     * each agent's failures skip that agent. `linkedNames` and `linkedIds`
     * record the agents linked to the listing, in order.
     */
    method ProcessRealtor(realtor: Realtor, listingId: Uuid, now: Time)
      returns (r: Result<()>, ghost linkedNames: seq<string>, ghost linkedIds: seq<Uuid>)
      requires ids.Valid() && Parties(store.brokerages, store.agents, ids.next)
      modifies store`brokerages, store`agents, store`listingAgents, store`media, ids
      ensures ids.Valid() && Parties(store.brokerages, store.agents, ids.next) && old(ids.next) <= ids.next
      ensures var name := realtor.company.name;
        r.Err? <==> name != "" && (GetBrokerageByNameOp in store.failing
                                   || (!HasBrokerageNamed(old(store.brokerages), name) && UpsertBrokerageOp in store.failing))
      ensures r.Err? ==>
        store.brokerages == old(store.brokerages) && store.agents == old(store.agents)
        && store.listingAgents == old(store.listingAgents)
      ensures var name := realtor.company.name;
        name != "" && GetBrokerageByNameOp !in store.failing && HasBrokerageNamed(old(store.brokerages), name) ==>
          store.brokerages == old(store.brokerages)
      ensures var name := realtor.company.name;
        name != "" && r.Ok? ==> HasBrokerageNamed(store.brokerages, name)
      ensures forall id :: id in old(store.agents) ==>
        id in store.agents && (store.agents[id] == old(store.agents)[id] || AgentTouched(old(store.agents)[id], store.agents[id], now))
      ensures forall k :: k in store.listingAgents ==>
        (k in old(store.listingAgents) && store.listingAgents[k] == old(store.listingAgents)[k])
        || (k.0 == listingId && store.listingAgents[k] == "listing")
      ensures forall k :: k in old(store.listingAgents) ==> k in store.listingAgents
      ensures |linkedNames| == |linkedIds|
      ensures forall j :: 0 <= j < |linkedIds| ==>
        linkedIds[j] in store.agents && store.agents[linkedIds[j]].fullName == linkedNames[j]
        && store.agents[linkedIds[j]].lastSeenAt == now
        && (listingId, linkedIds[j]) in store.listingAgents && store.listingAgents[(listingId, linkedIds[j])] == "listing"
      ensures r.Ok? && GetAgentOp !in store.failing && UpsertAgentOp !in store.failing && UpsertListingAgentOp !in store.failing ==>
        forall i :: 0 <= i < |realtor.agents| && realtor.agents[i].name != "" ==> realtor.agents[i].name in linkedNames
      ensures KeepsMedia(old(store.media), store.media)
    {
      linkedNames, linkedIds := [], [];
      var b;
      ghost var logo;
      b, logo := ResolveBrokerage(realtor.company, now);
      if b.Err? {
        return Err(b.msg), linkedNames, linkedIds;
      }
      var brokerageId := b.value;
      ghost var brokerages := store.brokerages;
      linkedNames, linkedIds := LinkAgents(realtor.agents, brokerageId, listingId, now);
      assert store.brokerages == brokerages;
      r := Ok(());
    }

    /**
     * MarkDelisted: the listing with this id is marked delisted now and a
     * delisted event is recorded (its failure is only logged). A failed
     * lookup, a missing listing or a failed update is an error.
     */
    method MarkDelisted(listingId: Uuid, now: Time) returns (r: Result<()>, ghost listing: Option<Listing>)
      requires Valid()
      modifies store`listings, store`events
      ensures Valid()
      ensures r.Err? <==> GetListingByIdOp in store.failing || !HasListingWithId(old(store.listings), listingId)
                          || UpdateListingStatusOp in store.failing
      ensures r.Err? ==> store.listings == old(store.listings) && store.events == old(store.events)
      ensures r.Ok? ==>
        listing.Some? && listing.value in old(store.listings).Values && listing.value.id == listingId
        && store.listings == DelistAll(old(store.listings), Some(listingId), now)
        && store.events == old(store.events)
             + (if CreateEventOp in store.failing then [] else [DelistedEvent(listing.value.propertyId, listing.value.price, now)])
    {
      listing := None;
      var found := store.GetListingById(listingId);
      if found.Err? {
        return Err(found.msg), listing;
      }
      if found.value.None? {
        return Err("listing not found"), listing;
      }
      var l := found.value.value;
      listing := Some(l);
      var u := store.UpdateListingStatus(listingId, StatusDelisted, Some(now), now);
      if u.Err? {
        return Err(u.msg), listing;
      }
      var _ := store.CreatePropertyEvent(DelistedEvent(l.propertyId, l.price, now));
      r := Ok(());
    }

    /** Steps 1 and 2: the property, then its MLS number recorded as an identifier (a failure is only logged). */
    method PropertyStep(raw: RawListing, source: string, fp: string, now: Time) returns (r: Result<DomainProperty>, isNew: bool)
      requires ids.Valid() && PropertiesKeyed(store.properties)
      modifies store`properties, store`identifiers, store`matches, ids
      ensures ids.Valid() && PropertiesKeyed(store.properties) && old(ids.next) <= ids.next
      ensures r.Err? <==> GetPropertyByFingerprintOp in store.failing || UpsertPropertyOp in store.failing
      ensures r.Ok? ==> PropertyResolved(old(store.properties), store.properties, raw, fp, r.value.id, isNew, now)
      ensures r.Ok? && raw.mls != "" && UpsertPropertyIdentifierOp !in store.failing ==>
        (r.value.id, IdentifierMls, raw.mls) in store.identifiers
      ensures KeepsRows(old(store.matches), store.matches)
      ensures r.Ok? && (!useMatch || !isNew) ==> store.matches == old(store.matches)
    {
      ghost var candidates;
      r, isNew, candidates := ResolveProperty(raw, fp, now);
      if r.Ok? && raw.mls != "" {
        var _ := store.UpsertPropertyIdentifier(PropertyIdentifier(r.value.id, IdentifierMls, raw.mls, source));
      }
    }

    /**
     * Steps 1 to 3: the property, its MLS identifier and the listing. Only
     * the lookups and upserts of the property and the listing are errors.
     */
    method Locate(raw: RawListing, source: string, fp: string, now: Time)
      returns (r: Result<Located>, ghost delisted: Option<Uuid>)
      requires ids.Valid() && PropertiesKeyed(store.properties) && ListingsKeyed(store.listings)
      modifies store`properties, store`identifiers, store`listings, store`matches, ids
      ensures ids.Valid() && PropertiesKeyed(store.properties) && ListingsKeyed(store.listings) && old(ids.next) <= ids.next
      ensures r.Err? <==> LookupFails(store.failing)
      ensures r.Ok? ==>
        Lookups(old(store.properties), store.properties, old(store.listings), store.listings, store.failing,
                raw, source, fp, r.value, delisted, now)
      ensures r.Err? ==> store.listings == DelistAll(old(store.listings), delisted, now)
      ensures r.Ok? && raw.mls != "" && UpsertPropertyIdentifierOp !in store.failing ==>
        (r.value.property.id, IdentifierMls, raw.mls) in store.identifiers
      ensures KeepsRows(old(store.matches), store.matches)
      ensures r.Ok? && (!useMatch || !r.value.isNewProperty) ==> store.matches == old(store.matches)
    {
      delisted := None;
      DelistNothing(store.listings, now);
      var pr, isNewProperty := PropertyStep(raw, source, fp, now);
      if pr.Err? {
        return Err(pr.msg), delisted;
      }
      var property := pr.value;
      ghost var properties1, next := store.properties, ids.next;
      var lr;
      lr, delisted := ResolveListing(raw, source, property, now);
      if lr.Err? {
        return Err(lr.msg), delisted;
      }
      LookupsOfSteps(old(store.properties), properties1, old(store.listings), store.listings, store.failing,
                     raw, source, fp, property, isNewProperty, lr.value, delisted, next, now);
      r := Ok(Located(property, isNewProperty, lr.value));
    }

    /**
     * Steps 4 to 6: the events, the asking-price point and the link to the
     * listing's page. Every failure here is only logged.
     */
    method RecordListing(raw: RawListing, source: string, propertyId: Uuid, listingId: Uuid,
                         isNew: bool, isRelisted: bool, priceChanged: bool, previous: Option<int>, now: Time)
      returns (created: nat)
      modifies store`events, store`pricePoints, store`links
      ensures EventsRecorded(old(store.events), store.events, store.failing, raw, propertyId,
                             isNew, isRelisted, priceChanged, previous, created, now)
      ensures PricePointRecorded(old(store.pricePoints), store.pricePoints, store.failing, raw, propertyId, listingId, now)
      ensures LinkRecorded(old(store.links), store.links, store.failing, raw, source, propertyId, listingId, now)
    {
      var price := IntPtr(raw.price);
      created := RecordEvents(propertyId, price, isNew, isRelisted, priceChanged, previous, now);
      if price.Some? && price.value > 0 {
        var _ := store.CreatePricePoint(PricePointFor(propertyId, listingId, price.value, now));
      }
      if raw.url != "" {
        var _ := store.UpsertPropertyLink(LinkFor(propertyId, listingId, raw.url, source, now));
      }
    }

    /**
     * Steps 7 and 8: the photos, when the media service is set, and the
     * realtor. Every failure here is only logged.
     */
    method AttachMedia(raw: RawListing, listingId: Uuid, province: string, city: string, now: Time)
      returns (queued: nat, ghost names: seq<string>, ghost agentIds: seq<Uuid>)
      requires ids.Valid() && Parties(store.brokerages, store.agents, ids.next)
      modifies store`media, store`listingMedia, store`brokerages, store`agents, store`listingAgents, ids
      ensures ids.Valid() && Parties(store.brokerages, store.agents, ids.next) && old(ids.next) <= ids.next
      ensures PhotosCounted(raw, store.failing, useMedia, queued)
      ensures KeepsMedia(old(store.media), store.media)
      ensures PhotosLinked(old(store.listingMedia), store.listingMedia, store.media, store.failing, useMedia,
                           listingId, raw.photos)
      ensures RealtorRows(raw.realtor, store.failing, listingId, old(store.brokerages), store.brokerages,
                          old(store.agents), store.agents, old(store.listingAgents), store.listingAgents, names, agentIds, now)
    {
      queued, names, agentIds := 0, [], [];
      if useMedia && |raw.photos| > 0 {
        ghost var next := ids.next;
        queued := QueuePhotos(listingId, raw.photos, province, city, now);
        PartiesGrow(store.brokerages, store.agents, next, ids.next);
      }
      ghost var media1 := store.media;
      assert PhotosLinked(old(store.listingMedia), store.listingMedia, media1, store.failing, useMedia, listingId, raw.photos);
      if raw.realtor.Some? {
        var realtorResult;
        realtorResult, names, agentIds := ProcessRealtor(raw.realtor.value, listingId, now);
        PhotosLinkedGrow(old(store.listingMedia), store.listingMedia, media1, store.media, store.failing, useMedia,
                         listingId, raw.photos);
      }
    }

    /**
     * Steps 4 to 8 for the located listing: the events, price point, link,
     * photos and realtor, and the result with its counts.
     */
    method FanOut(raw: RawListing, source: string, l: Located, now: Time, ghost fp: string,
                  ghost p0: map<string, DomainProperty>, ghost p1: map<string, DomainProperty>,
                  ghost l0: map<ListingKey, Listing>, ghost l1: map<ListingKey, Listing>, ghost delisted: Option<Uuid>)
      returns (res: ProcessResult, ghost names: seq<string>, ghost agentIds: seq<Uuid>)
      requires ids.Valid() && Parties(store.brokerages, store.agents, ids.next)
      requires p1 == store.properties && l1 == store.listings
      modifies store`events, store`pricePoints, store`links
      modifies store`media, store`listingMedia, store`brokerages, store`agents, store`listingAgents, ids
      ensures ids.Valid() && Parties(store.brokerages, store.agents, ids.next) && old(ids.next) <= ids.next
      ensures res.propertyId == l.property.id && res.isNewProperty == l.isNewProperty
      ensures KeepsMedia(old(store.media), store.media)
      ensures Lookups(p0, p1, l0, l1, store.failing, raw, source, fp, l, delisted, now) ==>
        Processed(p0, p1, l0, l1, old(store.events), store.events,
                  old(store.pricePoints), store.pricePoints, old(store.links), store.links,
                  old(store.listingMedia), store.listingMedia, store.media,
                  old(store.brokerages), store.brokerages, old(store.agents), store.agents,
                  old(store.listingAgents), store.listingAgents, store.failing, useMedia, raw, source, fp,
                  res, delisted, names, agentIds, now)
    {
      var priceChanged := StepPriceChanged(l.step);
      var created := RecordListing(raw, source, l.property.id, l.step.listing.id, l.step.isNew, l.step.isRelisted,
                                   priceChanged, l.step.previousPrice, now);
      var queued;
      queued, names, agentIds := AttachMedia(raw, l.step.listing.id, l.property.province, l.property.city, now);
      res := ProcessResult(l.property.id, l.step.listing.id, l.isNewProperty, l.step.isNew, l.step.isRelisted,
                           priceChanged, created, queued);
      if Lookups(p0, p1, l0, l1, store.failing, raw, source, fp, l, delisted, now) {
        ListingEventsShape(l.property.id, IntPtr(raw.price), l.step.isNew, l.step.isRelisted, priceChanged,
                           l.step.previousPrice, now);
        ProcessedOfSteps(p0, p1, l0, l1, old(store.events), store.events,
                         old(store.pricePoints), store.pricePoints, old(store.links), store.links,
                         old(store.listingMedia), store.listingMedia, store.media,
                         old(store.brokerages), store.brokerages, old(store.agents), store.agents,
                         old(store.listingAgents), store.listingAgents, store.failing, useMedia, raw, source, fp,
                         l, res, delisted, names, agentIds, now);
      }
    }

    /**
     * The whole fan-out of one scraped listing whose fingerprint is `fp`.
     * Only the property and listing lookups and upserts are errors; every
     * later step that fails is logged and skipped.
     */
    method ProcessFingerprinted(raw: RawListing, source: string, fp: string, now: Time)
      returns (r: Result<ProcessResult>, ghost delisted: Option<Uuid>, ghost names: seq<string>, ghost agentIds: seq<Uuid>)
      requires Valid()
      modifies store`properties, store`identifiers, store`listings, store`events, store`pricePoints, store`links
      modifies store`media, store`listingMedia, store`brokerages, store`agents, store`listingAgents, store`matches, ids
      ensures Valid() && old(ids.next) <= ids.next
      ensures r.Err? <==> LookupFails(store.failing)
      ensures r.Err? ==>
        store.events == old(store.events) && store.pricePoints == old(store.pricePoints) && store.links == old(store.links)
        && store.media == old(store.media) && store.listingMedia == old(store.listingMedia)
        && store.brokerages == old(store.brokerages) && store.agents == old(store.agents)
        && store.listingAgents == old(store.listingAgents)
      ensures r.Ok? ==>
        Processed(old(store.properties), store.properties, old(store.listings), store.listings,
                  old(store.events), store.events, old(store.pricePoints), store.pricePoints,
                  old(store.links), store.links, old(store.listingMedia), store.listingMedia, store.media,
                  old(store.brokerages), store.brokerages, old(store.agents), store.agents,
                  old(store.listingAgents), store.listingAgents, store.failing, useMedia, raw, source, fp,
                  r.value, delisted, names, agentIds, now)
      ensures r.Err? ==> store.listings == DelistAll(old(store.listings), delisted, now)
      ensures r.Ok? && raw.mls != "" && UpsertPropertyIdentifierOp !in store.failing ==>
        (r.value.propertyId, IdentifierMls, raw.mls) in store.identifiers
      ensures KeepsMedia(old(store.media), store.media)
      ensures KeepsRows(old(store.matches), store.matches)
      ensures r.Ok? && (!useMatch || !r.value.isNewProperty) ==> store.matches == old(store.matches)
    {
      ghost var next := ids.next;
      names, agentIds := [], [];
      var located;
      located, delisted := Locate(raw, source, fp, now);
      PartiesGrow(store.brokerages, store.agents, next, ids.next);
      if located.Err? {
        r := Err(located.msg);
      } else {
        assert store.events == old(store.events) && store.pricePoints == old(store.pricePoints) && store.links == old(store.links);
        assert store.media == old(store.media) && store.listingMedia == old(store.listingMedia);
        assert store.brokerages == old(store.brokerages) && store.agents == old(store.agents)
          && store.listingAgents == old(store.listingAgents);
        ghost var properties1, listings1 := store.properties, store.listings;
        var res;
        res, names, agentIds := FanOut(raw, source, located.value, now, fp, old(store.properties), properties1,
                                       old(store.listings), listings1, delisted);
        assert store.properties == properties1 && store.listings == listings1;
        r := Ok(res);
      }
    }

    /**
     * ProcessListing: the listing's fingerprint, then the fan-out above under
     * it, with the same contract.
     */
    method ProcessListing(raw: RawListing, source: string, now: Time)
      returns (r: Result<ProcessResult>, ghost delisted: Option<Uuid>, ghost names: seq<string>, ghost agentIds: seq<Uuid>)
      requires Valid()
      modifies store`properties, store`identifiers, store`listings, store`events, store`pricePoints, store`links
      modifies store`media, store`listingMedia, store`brokerages, store`agents, store`listingAgents, store`matches, ids
      ensures Valid() && old(ids.next) <= ids.next
      ensures r.Err? <==> LookupFails(store.failing)
      ensures r.Err? ==>
        store.events == old(store.events) && store.pricePoints == old(store.pricePoints) && store.links == old(store.links)
        && store.media == old(store.media) && store.listingMedia == old(store.listingMedia)
        && store.brokerages == old(store.brokerages) && store.agents == old(store.agents)
        && store.listingAgents == old(store.listingAgents)
      ensures r.Ok? ==>
        Processed(old(store.properties), store.properties, old(store.listings), store.listings,
                  old(store.events), store.events, old(store.pricePoints), store.pricePoints,
                  old(store.links), store.links, old(store.listingMedia), store.listingMedia, store.media,
                  old(store.brokerages), store.brokerages, old(store.agents), store.agents,
                  old(store.listingAgents), store.listingAgents, store.failing, useMedia, raw, source, Fingerprint(raw, sha256),
                  r.value, delisted, names, agentIds, now)
      ensures r.Err? ==> store.listings == DelistAll(old(store.listings), delisted, now)
      ensures r.Ok? && raw.mls != "" && UpsertPropertyIdentifierOp !in store.failing ==>
        (r.value.propertyId, IdentifierMls, raw.mls) in store.identifiers
      ensures KeepsMedia(old(store.media), store.media)
      ensures KeepsRows(old(store.matches), store.matches)
      ensures r.Ok? && (!useMatch || !r.value.isNewProperty) ==> store.matches == old(store.matches)
    {
      r, delisted, names, agentIds := ProcessFingerprinted(raw, source, Fingerprint(raw, sha256), now);
    }

    /**
     * Processing is idempotent: the same listing processed again finds its
     * property and listing, reports nothing new, no relist, no price change
     * and no event, and names the same property and listing.
     */
    method ProcessTwice(raw: RawListing, source: string, now1: Time, now2: Time)
      returns (r1: Result<ProcessResult>, r2: Result<ProcessResult>)
      requires Valid()
      modifies store`properties, store`identifiers, store`listings, store`events, store`pricePoints, store`links
      modifies store`media, store`listingMedia, store`brokerages, store`agents, store`listingAgents, store`matches, ids
      ensures r1.Ok? <==> r2.Ok?
      ensures r1.Ok? ==>
        !r2.value.isNewProperty && !r2.value.isNewListing && !r2.value.isRelisted && !r2.value.priceChanged
        && r2.value.eventsCreated == 0
        && r2.value.propertyId == r1.value.propertyId && r2.value.listingId == r1.value.listingId
    {
      ghost var properties0, listings0 := store.properties, store.listings;
      ghost var d1, n1, a1, d2, n2, a2;
      r1, d1, n1, a1 := ProcessListing(raw, source, now1);
      ghost var properties1, listings1, events1 := store.properties, store.listings, store.events;
      r2, d2, n2, a2 := ProcessListing(raw, source, now2);
      if r1.Ok? {
        SeenAgain(properties0, properties1, store.properties, listings0, listings1, store.listings,
                  events1, store.events, store.failing, raw, source, Fingerprint(raw, sha256),
                  r1.value, r2.value, now1, now2);
      }
    }
  }
}
