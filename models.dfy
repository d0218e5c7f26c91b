/**
 * Entities of the scraper (models/domain.go, models/snapshot.go,
 * models/property.go, models/run.go, models/command.go) as values.
 *
 * Conventions: a `uuid.UUID` is a natural number with 0 as uuid.Nil; a
 * `time.Time` is an integer timestamp; a Go pointer is an Option; a
 * json.RawMessage is Option<string> (nil is None, which the database stores
 * as NULL); float64 prices and float32 coordinates are integers.
 */
module Models {
  import opened Util

  type Uuid = nat
  const NilUuid: Uuid := 0

  type Time = int

  // ---------------------------------------------------------------------
  // Domain tables (models/domain.go)
  // ---------------------------------------------------------------------

  datatype DomainProperty = DomainProperty(
    id: Uuid,
    fingerprint: string,
    country: string,
    province: string,
    city: string,
    postalCode: string,
    addressFull: string,
    lat: Option<int>,
    lng: Option<int>,
    unitNumber: string,
    floor: int,
    stories: int,
    propertyType: string,
    yearBuilt: Option<int>,
    lotSqFt: Option<int>,
    beds: Option<int>,
    baths: Option<int>,
    sqft: Option<int>,
    details: Option<string>,
    createdAt: Time,
    updatedAt: Time)

  datatype PropertyIdentifier = PropertyIdentifier(propertyId: Uuid, kind: string, identifier: string, source: string)

  datatype Listing = Listing(
    id: Uuid,
    propertyId: Uuid,
    source: string,
    externalId: string,
    url: string,
    kind: string,
    status: string,
    price: Option<int>,
    currency: string,
    fees: Option<string>,
    propertyType: string,
    beds: Option<int>,
    baths: Option<int>,
    sqft: Option<int>,
    sqftLot: Option<int>,
    floor: int,
    stories: int,
    description: string,
    features: Option<string>,
    rawData: Option<string>,
    lastSeen: Time,
    listedAt: Time,
    delistedAt: Option<Time>,
    enrichmentAttempts: Option<int>,
    createdAt: Time,
    updatedAt: Time)

  datatype Media = Media(
    id: Uuid,
    s3Key: Option<string>,
    contentHash: string,
    mediaType: string,
    category: string,
    province: string,
    city: string,
    mimeType: string,
    fileSizeBytes: Option<int>,
    originalUrl: string,
    height: Option<int>,
    width: Option<int>,
    status: string,
    attempts: int,
    createdAt: Time)

  datatype Brokerage = Brokerage(
    id: Uuid,
    name: string,
    brand: string,
    phone: string,
    email: string,
    website: string,
    address: string,
    country: string,
    city: string,
    province: string,
    logoId: Option<Uuid>,
    createdAt: Time)

  datatype Agent = Agent(
    id: Uuid,
    fullName: string,
    licenseNumber: string,
    email: string,
    phone: string,
    bio: string,
    brokerageId: Option<Uuid>,
    headshotId: Option<Uuid>,
    firstSeenAt: Time,
    lastSeenAt: Time,
    createdAt: Time)

  /** Confidence is in hundredths (0.75 is 75); match reasons are kept as a list. */
  datatype PropertyMatch = PropertyMatch(
    matchedId: Uuid,
    incomingId: Uuid,
    confidence: int,
    reasons: seq<string>,
    status: string,
    createdAt: Time)

  datatype PropertyEvent = PropertyEvent(
    propertyId: Uuid,
    eventType: string,
    eventDate: Time,
    price: Option<int>,
    previousPrice: Option<int>,
    summary: string,
    sourceType: string,
    source: string,
    createdAt: Time)

  datatype PricePoint = PricePoint(
    propertyId: Uuid,
    listingId: Option<Uuid>,
    priceType: string,
    amount: int,
    currency: string,
    period: string,
    effectiveAt: Time,
    source: string,
    createdAt: Time)

  datatype PropertyLink = PropertyLink(
    propertyId: Uuid,
    listingId: Option<Uuid>,
    url: string,
    site: string,
    linkType: string,
    isPrimary: bool,
    isActive: bool,
    firstSeenAt: Time,
    lastSeenAt: Time,
    notes: string)

  // Event types
  const EventListed := "listed"
  const EventDelisted := "delisted"
  const EventRelisted := "relisted"
  const EventPriceChange := "price_change"

  // Listing status
  const StatusActive := "active"
  const StatusDelisted := "delisted"

  // Price types
  const PriceAskingSale := "asking_sale"

  // Media status; the worker also writes "duplicate", which is not among these
  const MediaPending := "pending"
  const MediaUploading := "uploading"
  const MediaUploaded := "uploaded"
  const MediaFailed := "failed"
  const MediaDuplicate := "duplicate"

  // Media categories (the values the storage-key schema switches on)
  const CategoryListing := "listing"
  const CategoryProperty := "property"
  const CategoryRecord := "record"
  const CategoryAssessment := "assessment"
  const CategoryIntel := "intel"
  const CategoryAgent := "agent"
  const CategoryBrokerage := "brokerage"

  const IdentifierMls := "mls"

  // ---------------------------------------------------------------------
  // Scraped records (models/snapshot.go)
  // ---------------------------------------------------------------------

  datatype RealtorCompany = RealtorCompany(id: int, name: string, phone: string, address: string, logo: string)
  datatype RealtorAgent = RealtorAgent(id: int, name: string, phone: string, photo: string)
  datatype Realtor = Realtor(company: RealtorCompany, agents: seq<RealtorAgent>)

  datatype RawListing = RawListing(
    id: string,
    mls: string,
    address: string,
    city: string,
    province: string,
    postalCode: string,
    price: int,
    beds: int,
    bedsPlus: int,
    baths: int,
    sqft: int,
    propertyType: string,
    url: string,
    photos: seq<string>,
    description: string,
    realtor: Option<Realtor>,
    data: Option<string>)

  const EmptyRawListing := RawListing("", "", "", "", "", "", 0, 0, 0, 0, 0, "", "", [], "", None, None)

  datatype Snapshot = Snapshot(
    id: int,
    propertyId: string,
    listingId: string,
    siteId: string,
    url: string,
    price: int,
    description: string,
    photos: seq<string>,
    scrapedAt: Time,
    runId: int)

  // ---------------------------------------------------------------------
  // Legacy local tables (models/property.go, models/run.go, models/command.go)
  // ---------------------------------------------------------------------

  datatype Property = Property(
    id: string,
    normalizedAddress: string,
    city: string,
    postalCode: string,
    beds: int,
    bedsPlus: int,
    baths: int,
    sqft: int,
    propertyType: string,
    firstSeenAt: Time,
    lastSeenAt: Time,
    timesListed: int,
    synced: bool,
    isActive: bool)

  datatype HistoryEvent = HistoryEvent(
    event: string,
    date: Time,
    price: int,
    listingId: string,
    url: string,
    photos: seq<string>,
    previousPrice: int,
    daysOnMarket: int)

  const RunRunning := "running"
  const RunCompleted := "completed"
  const RunFailed := "failed"

  datatype ScrapeRun = ScrapeRun(
    id: int,
    siteId: string,
    startedAt: Time,
    finishedAt: Option<Time>,
    status: string,
    listingsFound: int,
    listingsNew: int,
    propertiesNew: int,
    propertiesRelisted: int,
    errorsCount: int)

  const CmdScrapeNow := "scrape_now"
  const CmdScrapeSite := "scrape_site"
  const CmdPause := "pause"
  const CmdResume := "resume"
  const CmdSyncNow := "sync_now"

  /** The commands the orchestrator acts on; any other is ignored. */
  predicate KnownCommand(c: string)
  {
    c == CmdScrapeNow || c == CmdScrapeSite || c == CmdPause || c == CmdResume || c == CmdSyncNow
  }

  datatype CommandParams = CommandParams(site: string, region: string)
  datatype Command = Command(id: int, command: string, params: Option<string>)

  // ---------------------------------------------------------------------
  // Fresh identifiers
  // ---------------------------------------------------------------------

  /** uuid.New(): a counter, so every id handed out differs from the earlier ones and from uuid.Nil. */
  class IdSource {
    var next: nat

    predicate Valid()
      reads this
    {
      next > NilUuid
    }

    constructor ()
      ensures Valid() && next == 1
    {
      next := 1;
    }

    method New() returns (id: Uuid)
      requires Valid()
      modifies this
      ensures Valid() && id == old(next) && next == old(next) + 1 && id != NilUuid
    {
      id := next;
      next := next + 1;
    }
  }
}
