/**
 * The Postgres store (storage/postgres.go) as a class over keyed tables.
 *
 * Each table is a map keyed by its unique constraint, and each upsert
 * applies the ON CONFLICT rule of its SQL statement field by field. Go strings
 * are never NULL, so COALESCE(EXCLUDED.s, old.s) on a string always takes the
 * new value. A nil pointer or nil json.RawMessage is NULL, so for an Option
 * COALESCE keeps the stored value. COALESCE(NULLIF(x, 0), old) keeps the
 * stored value when x is 0. NOW() is the `now` parameter.
 *
 * Database failures are modelled by the `failing` set: a call to an operation
 * in the set returns an error and changes nothing.
 */
module Postgres {
  import opened Util
  import opened Models

  /** The store operations, for naming the ones that fail. */
  datatype Op =
    | UpsertPropertyOp | GetPropertyByFingerprintOp | UpsertPropertyIdentifierOp
    | UpsertListingOp | GetListingOp | GetListingByIdOp | GetActiveListingOp
    | UpdateListingStatusOp | UpdateListingPriceOp | TouchListingOp | GetStaleListingsOp
    | CreateEventOp | CreatePricePointOp
    | UpsertLinkOp | DeactivateLinksOp
    | UpsertMediaOp | GetMediaByUrlOp | GetMediaByS3KeyOp | GetPendingMediaOp | UpdateMediaStatusOp
    | UpsertListingMediaOp
    | UpsertBrokerageOp | GetBrokerageByNameOp
    | UpsertAgentOp | GetAgentOp | UpsertListingAgentOp
    | QueryCandidatesOp | InsertMatchOp

  /** The listings table's unique key (source, external_id). */
  type ListingKey = (string, string)

  // ---------------------------------------------------------------------
  // Column merge rules
  // ---------------------------------------------------------------------

  /** COALESCE(EXCLUDED.x, stored.x) on a nullable column. */
  function Coalesce<T>(incoming: Option<T>, stored: Option<T>): Option<T>
  {
    if incoming.Some? then incoming else stored
  }

  /** COALESCE(NULLIF(EXCLUDED.x, 0), stored.x). */
  function NonZeroOr(incoming: int, stored: int): int
  {
    if incoming != 0 then incoming else stored
  }

  /** The rows a query returns for the keys it selected, in that order. */
  function RowsAt<K, V>(rows: map<K, V>, ks: seq<K>): (r: seq<V>)
    requires forall i :: 0 <= i < |ks| ==> ks[i] in rows
    ensures |r| == |ks|
    ensures forall i :: 0 <= i < |ks| ==> r[i] == rows[ks[i]]
  {
    seq(|ks|, i requires 0 <= i < |ks| => rows[ks[i]])
  }

  /** ON CONFLICT (fingerprint) DO UPDATE SET ... for properties. */
  function MergeProperty(stored: DomainProperty, p: DomainProperty, now: Time): DomainProperty
  {
    stored.(
      province := p.province, city := p.city, postalCode := p.postalCode,
      addressFull := p.addressFull,
      lat := Coalesce(p.lat, stored.lat), lng := Coalesce(p.lng, stored.lng),
      unitNumber := p.unitNumber,
      floor := NonZeroOr(p.floor, stored.floor), stories := NonZeroOr(p.stories, stored.stories),
      propertyType := p.propertyType,
      yearBuilt := Coalesce(p.yearBuilt, stored.yearBuilt), lotSqFt := Coalesce(p.lotSqFt, stored.lotSqFt),
      beds := Coalesce(p.beds, stored.beds), baths := Coalesce(p.baths, stored.baths),
      sqft := Coalesce(p.sqft, stored.sqft), details := Coalesce(p.details, stored.details),
      updatedAt := now)
  }

  /** ON CONFLICT (source, external_id) DO UPDATE SET ... for listings. */
  function MergeListing(stored: Listing, l: Listing, now: Time): Listing
  {
    stored.(
      url := l.url, status := l.status, price := l.price,
      fees := Coalesce(l.fees, stored.fees), propertyType := l.propertyType,
      beds := Coalesce(l.beds, stored.beds), baths := Coalesce(l.baths, stored.baths),
      sqft := Coalesce(l.sqft, stored.sqft), sqftLot := Coalesce(l.sqftLot, stored.sqftLot),
      floor := NonZeroOr(l.floor, stored.floor), stories := NonZeroOr(l.stories, stored.stories),
      description := l.description, features := Coalesce(l.features, stored.features),
      rawData := l.rawData, lastSeen := l.lastSeen, delistedAt := l.delistedAt,
      enrichmentAttempts := Coalesce(l.enrichmentAttempts, stored.enrichmentAttempts),
      updatedAt := now)
  }

  /** ON CONFLICT (url) DO UPDATE SET ... for property links. */
  function MergeLink(stored: PropertyLink, pl: PropertyLink): PropertyLink
  {
    stored.(listingId := Coalesce(pl.listingId, stored.listingId), isActive := pl.isActive,
            lastSeenAt := pl.lastSeenAt)
  }

  /** ON CONFLICT (original_url) DO UPDATE SET ... for media. */
  function MergeMedia(stored: Media, m: Media): Media
  {
    stored.(s3Key := Coalesce(m.s3Key, stored.s3Key), contentHash := m.contentHash,
            fileSizeBytes := Coalesce(m.fileSizeBytes, stored.fileSizeBytes),
            height := Coalesce(m.height, stored.height), width := Coalesce(m.width, stored.width),
            status := m.status, attempts := m.attempts)
  }

  /** ON CONFLICT (id) DO UPDATE SET ... for brokerages: logo_id is not in the list. */
  function MergeBrokerage(stored: Brokerage, b: Brokerage): Brokerage
  {
    stored.(name := b.name, brand := b.brand, phone := b.phone, email := b.email,
            website := b.website, address := b.address)
  }

  /** The same statement with logo_id = COALESCE(EXCLUDED.logo_id, brokerages.logo_id) added. */
  function MergeBrokerageWithLogo(stored: Brokerage, b: Brokerage): Brokerage
  {
    MergeBrokerage(stored, b).(logoId := Coalesce(b.logoId, stored.logoId))
  }

  /** ON CONFLICT (id) DO UPDATE SET ... for agents. */
  function MergeAgent(stored: Agent, a: Agent): Agent
  {
    stored.(fullName := a.fullName, licenseNumber := a.licenseNumber, email := a.email,
            phone := a.phone, bio := a.bio,
            brokerageId := Coalesce(a.brokerageId, stored.brokerageId),
            headshotId := Coalesce(a.headshotId, stored.headshotId),
            lastSeenAt := a.lastSeenAt)
  }

  // ---------------------------------------------------------------------
  // Properties of the merge rules
  // ---------------------------------------------------------------------

  /** Upserting the same row twice is the same as upserting it once. */
  lemma MergePropertyIdempotent(stored: DomainProperty, p: DomainProperty, now: Time)
    ensures MergeProperty(MergeProperty(stored, p, now), p, now) == MergeProperty(stored, p, now)
  {
  }

  /** The conflict never changes the row's id, fingerprint, country or creation time. */
  lemma MergePropertyKeepsIdentity(stored: DomainProperty, p: DomainProperty, now: Time)
    ensures var r := MergeProperty(stored, p, now);
      r.id == stored.id && r.fingerprint == stored.fingerprint
      && r.country == stored.country && r.createdAt == stored.createdAt
  {
  }

  /**
   * Writing back a row read from the table with only its postal code changed
   * changes only the postal code and updated_at: every COALESCE sees either
   * the stored value or NULL over the stored NULL.
   */
  lemma MergePropertyWithItself(stored: DomainProperty, postal: string, t: Time, now: Time)
    ensures MergeProperty(stored, stored.(postalCode := postal, updatedAt := t), now)
      == stored.(postalCode := postal, updatedAt := now)
  {
  }

  /** A property field is kept only when the incoming value is NULL, or 0 for floor and stories. */
  lemma MergePropertyKeepsOnlyOnNull(stored: DomainProperty, p: DomainProperty, now: Time)
    ensures var r := MergeProperty(stored, p, now);
      (r.beds == stored.beds <== p.beds.None?) && (p.beds.Some? ==> r.beds == p.beds)
      && (p.floor == 0 ==> r.floor == stored.floor) && (p.floor != 0 ==> r.floor == p.floor)
      && r.postalCode == p.postalCode && r.city == p.city
  {
  }

  lemma MergeListingIdempotent(stored: Listing, l: Listing, now: Time)
    ensures MergeListing(MergeListing(stored, l, now), l, now) == MergeListing(stored, l, now)
  {
  }

  /**
   * The listing conflict never touches id, property_id, the key, type,
   * currency, listed_at or created_at, and overwrites status, price,
   * raw_data, last_seen and delisted_at even with NULL.
   */
  lemma MergeListingFields(stored: Listing, l: Listing, now: Time)
    ensures var r := MergeListing(stored, l, now);
      r.id == stored.id && r.propertyId == stored.propertyId
      && r.source == stored.source && r.externalId == stored.externalId
      && r.kind == stored.kind && r.currency == stored.currency
      && r.listedAt == stored.listedAt && r.createdAt == stored.createdAt
      && r.status == l.status && r.price == l.price && r.rawData == l.rawData
      && r.lastSeen == l.lastSeen && r.delistedAt == l.delistedAt
  {
  }

  /** The link conflict keeps property_id, first_seen_at and is_primary. */
  lemma MergeLinkKeeps(stored: PropertyLink, pl: PropertyLink)
    ensures var r := MergeLink(stored, pl);
      r.propertyId == stored.propertyId && r.firstSeenAt == stored.firstSeenAt
      && r.isPrimary == stored.isPrimary && r.url == stored.url
      && r.isActive == pl.isActive && r.lastSeenAt == pl.lastSeenAt
  {
  }

  lemma MergeMediaIdempotent(stored: Media, m: Media)
    ensures MergeMedia(MergeMedia(stored, m), m) == MergeMedia(stored, m)
  {
  }

  /** As written, the brokerage conflict never stores a logo. */
  lemma MergeBrokerageDropsLogo(stored: Brokerage, b: Brokerage)
    ensures MergeBrokerage(stored, b).logoId == stored.logoId
  {
  }

  /** With logo_id in the update list, a logo the caller sets is stored. */
  lemma MergeBrokerageWithLogoStoresLogo(stored: Brokerage, b: Brokerage)
    ensures b.logoId.Some? ==> MergeBrokerageWithLogo(stored, b).logoId == b.logoId
    ensures b.logoId.None? ==> MergeBrokerageWithLogo(stored, b).logoId == stored.logoId
  {
  }

  lemma MergeAgentKeeps(stored: Agent, a: Agent)
    ensures var r := MergeAgent(stored, a);
      r.id == stored.id && r.firstSeenAt == stored.firstSeenAt && r.createdAt == stored.createdAt
      && r.lastSeenAt == a.lastSeenAt
  {
  }

  // ---------------------------------------------------------------------
  // Row predicates of the queries
  // ---------------------------------------------------------------------

  /** WHERE status = 'pending' AND attempts < 3 */
  predicate IsPendingMedia(m: Media)
  {
    m.status == MediaPending && m.attempts < 3
  }

  /** WHERE status = 'active' AND last_seen < staleBefore */
  predicate IsStaleActive(l: Listing, staleBefore: Time)
  {
    l.status == StatusActive && l.lastSeen < staleBefore
  }

  /**
   * WHERE id != excludeId, plus city, postal_code and
   * LOWER(address_full) LIKE prefix || '%', each only when its value is
   * non-empty. The prefix is not escaped, so a '%', '_' or '\' inside it
   * acts as a pattern character.
   */
  predicate IsMatchCandidate(p: DomainProperty, excludeId: Uuid, city: string, postal: string, prefix: string)
  {
    p.id != excludeId
    && (city == "" || p.city == city)
    && (postal == "" || p.postalCode == postal)
    && (prefix == "" || Like(ToLower(p.addressFull), prefix + "%"))
  }

  /**
   * `s LIKE pattern` under PostgreSQL's rules: '%' matches any run of
   * characters, '_' any single character, and '\' (the default escape)
   * makes the next character literal. A pattern ending in a lone escape,
   * which the server rejects, matches nothing here; the match service's
   * patterns end in '%', so they never do.
   */
  predicate Like(s: string, pattern: string)
    decreases |s| + |pattern|
  {
    if pattern == [] then s == []
    else if pattern[0] == '%' then Like(s, pattern[1..]) || (s != [] && Like(s[1..], pattern))
    else if pattern[0] == '_' then s != [] && Like(s[1..], pattern[1..])
    else if pattern[0] == '\\' then |pattern| >= 2 && s != [] && s[0] == pattern[1] && Like(s[1..], pattern[2..])
    else s != [] && s[0] == pattern[0] && Like(s[1..], pattern[1..])
  }

  /** A pattern character of LIKE. */
  predicate IsLikeSpecial(c: char)
  {
    c == '%' || c == '_' || c == '\\'
  }

  /** A trailing '%' matches any rest. */
  lemma {:induction false} LikeAnyRest(s: string)
    ensures Like(s, "%")
    decreases |s|
  {
    if s != [] {
      LikeAnyRest(s[1..]);
    }
  }

  /** Without pattern characters in the prefix, `LIKE prefix || '%'` is exactly a prefix test. */
  lemma {:induction false} LikePrefixLiteral(s: string, prefix: string)
    requires forall i :: 0 <= i < |prefix| ==> !IsLikeSpecial(prefix[i])
    ensures Like(s, prefix + "%") <==> HasPrefix(s, prefix)
    decreases |prefix|
  {
    if prefix == [] {
      assert prefix + "%" == "%";
      LikeAnyRest(s);
    } else {
      assert (prefix + "%")[0] == prefix[0] && (prefix + "%")[1..] == prefix[1..] + "%";
      if s != [] {
        LikePrefixLiteral(s[1..], prefix[1..]);
        assert HasPrefix(s, prefix) <==> s[0] == prefix[0] && HasPrefix(s[1..], prefix[1..]) by {
          if s[0] == prefix[0] && HasPrefix(s[1..], prefix[1..]) {
            assert s[..|prefix|] == [s[0]] + s[1..][..|prefix| - 1];
          }
          if HasPrefix(s, prefix) {
            assert s[1..][..|prefix| - 1] == s[..|prefix|][1..];
          }
        }
      }
    }
  }

  /**
   * An underscore in the lower-cased address is a wildcard: the prefix "1_ a"
   * selects a stored "12 a", which does not start with it.
   */
  lemma LikeUnderscoreExample()
    ensures Like("12 a", "1_ a" + "%") && !HasPrefix("12 a", "1_ a")
  {
    var s, p := "12 a", "1_ a%";
    assert "1_ a" + "%" == p;
    assert p[4..] == "%" && s[4..] == [];
    assert Like(s[4..], p[4..]);
    assert Like(s[3..], p[3..]);
    assert Like(s[2..], p[2..]);
    assert Like(s[1..], p[1..]);
    assert s[..4][1] != "1_ a"[1];
  }

  /** The listings table after UPDATE listings SET price, updated_at, last_seen WHERE id = `id`. */
  function RepricedRows(m: map<ListingKey, Listing>, id: Uuid, price: int, now: Time): map<ListingKey, Listing>
  {
    map k | k in m :: if m[k].id == id then m[k].(price := Some(price), updatedAt := now, lastSeen := now) else m[k]
  }

  /** The listings table after UPDATE listings SET last_seen, updated_at WHERE id = `id`. */
  function TouchedRows(m: map<ListingKey, Listing>, id: Uuid, now: Time): map<ListingKey, Listing>
  {
    map k | k in m :: if m[k].id == id then m[k].(lastSeen := now, updatedAt := now) else m[k]
  }

  /** The links table after UPDATE property_links SET is_active = false WHERE listing_id = `listingId`. */
  function DeactivatedLinks(links: map<string, PropertyLink>, listingId: Uuid, now: Time): map<string, PropertyLink>
  {
    map u | u in links :: if links[u].listingId == Some(listingId) then links[u].(isActive := false, lastSeenAt := now) else links[u]
  }

  /** One row after UPDATE media SET status, s3_key = COALESCE($3, s3_key), content_hash, attempts. */
  function WithStatus(m: Media, status: string, s3Key: Option<string>, contentHash: string, attempts: int): Media
  {
    m.(status := status, s3Key := Coalesce(s3Key, m.s3Key), contentHash := contentHash, attempts := attempts)
  }

  /** The media table after that UPDATE ... WHERE id = `id`. */
  function MediaStatusSet(media: map<string, Media>, id: Uuid, status: string, s3Key: Option<string>,
                          contentHash: string, attempts: int): map<string, Media>
  {
    map u | u in media :: if media[u].id == id then WithStatus(media[u], status, s3Key, contentHash, attempts) else media[u]
  }

  class Store {
    var properties: map<string, DomainProperty>
    var identifiers: map<(Uuid, string, string), PropertyIdentifier>
    var listings: map<ListingKey, Listing>
    var events: seq<PropertyEvent>
    var pricePoints: seq<PricePoint>
    var links: map<string, PropertyLink>
    var media: map<string, Media>
    var listingMedia: map<(Uuid, Uuid), int>
    var brokerages: map<Uuid, Brokerage>
    var agents: map<Uuid, Agent>
    var listingAgents: map<(Uuid, Uuid), string>
    var matches: map<(Uuid, Uuid), PropertyMatch>
    const failing: set<Op>

    /** An empty database whose listed operations fail. */
    constructor (failing: set<Op>)
      ensures properties == map[] && identifiers == map[] && listings == map[]
      ensures events == [] && pricePoints == [] && links == map[] && media == map[]
      ensures listingMedia == map[] && brokerages == map[] && agents == map[]
      ensures listingAgents == map[] && matches == map[]
      ensures this.failing == failing
    {
      properties, identifiers, listings := map[], map[], map[];
      events, pricePoints, links, media := [], [], map[], map[];
      listingMedia, brokerages, agents := map[], map[], map[];
      listingAgents, matches := map[], map[];
      this.failing := failing;
    }

    // -------------------------------------------------------------------
    // Properties
    // -------------------------------------------------------------------

    /** Inserts or merges on fingerprint; the result is the stored row's id. */
    method UpsertProperty(p: DomainProperty, now: Time) returns (r: Result<Uuid>)
      modifies this`properties
      ensures UpsertPropertyOp in failing <==> r.Err?
      ensures r.Err? ==> properties == old(properties)
      ensures r.Ok? && p.fingerprint in old(properties) ==>
        r.value == old(properties)[p.fingerprint].id
        && properties == old(properties)[p.fingerprint := MergeProperty(old(properties)[p.fingerprint], p, now)]
      ensures r.Ok? && p.fingerprint !in old(properties) ==>
        r.value == p.id && properties == old(properties)[p.fingerprint := p]
    {
      if UpsertPropertyOp in failing {
        return Err("upsert property");
      }
      if p.fingerprint in properties {
        var stored := properties[p.fingerprint];
        properties := properties[p.fingerprint := MergeProperty(stored, p, now)];
        r := Ok(stored.id);
      } else {
        properties := properties[p.fingerprint := p];
        r := Ok(p.id);
      }
    }

    /** The row with this fingerprint, or None when there is none. */
    method GetPropertyByFingerprint(fingerprint: string) returns (r: Result<Option<DomainProperty>>)
      ensures GetPropertyByFingerprintOp in failing <==> r.Err?
      ensures r.Ok? ==> (r.value.Some? <==> fingerprint in properties)
      ensures r.Ok? && r.value.Some? ==> r.value.value == properties[fingerprint]
    {
      if GetPropertyByFingerprintOp in failing {
        return Err("get property");
      }
      if fingerprint in properties {
        r := Ok(Some(properties[fingerprint]));
      } else {
        r := Ok(None);
      }
    }

    /** ON CONFLICT (property_id, type, identifier) DO NOTHING. */
    method UpsertPropertyIdentifier(pi: PropertyIdentifier) returns (r: Result<()>)
      modifies this`identifiers
      ensures UpsertPropertyIdentifierOp in failing <==> r.Err?
      ensures var k := (pi.propertyId, pi.kind, pi.identifier);
        identifiers == if r.Ok? && k !in old(identifiers) then old(identifiers)[k := pi] else old(identifiers)
    {
      if UpsertPropertyIdentifierOp in failing {
        return Err("upsert identifier");
      }
      var k := (pi.propertyId, pi.kind, pi.identifier);
      if k !in identifiers {
        identifiers := identifiers[k := pi];
      }
      r := Ok(());
    }

    // -------------------------------------------------------------------
    // Listings
    // -------------------------------------------------------------------

    /** Inserts or merges on (source, external_id); the result is the stored row's id. */
    method UpsertListing(l: Listing, now: Time) returns (r: Result<Uuid>)
      modifies this`listings
      ensures UpsertListingOp in failing <==> r.Err?
      ensures r.Err? ==> listings == old(listings)
      ensures var k := (l.source, l.externalId);
        r.Ok? && k in old(listings) ==>
          r.value == old(listings)[k].id
          && listings == old(listings)[k := MergeListing(old(listings)[k], l, now)]
      ensures var k := (l.source, l.externalId);
        r.Ok? && k !in old(listings) ==> r.value == l.id && listings == old(listings)[k := l]
    {
      if UpsertListingOp in failing {
        return Err("upsert listing");
      }
      var k := (l.source, l.externalId);
      if k in listings {
        var stored := listings[k];
        listings := listings[k := MergeListing(stored, l, now)];
        r := Ok(stored.id);
      } else {
        listings := listings[k := l];
        r := Ok(l.id);
      }
    }

    method GetListingBySourceAndExternalId(source: string, externalId: string) returns (r: Result<Option<Listing>>)
      ensures GetListingOp in failing <==> r.Err?
      ensures r.Ok? ==> (r.value.Some? <==> (source, externalId) in listings)
      ensures r.Ok? && r.value.Some? ==> r.value.value == listings[(source, externalId)]
    {
      if GetListingOp in failing {
        return Err("get listing");
      }
      if (source, externalId) in listings {
        r := Ok(Some(listings[(source, externalId)]));
      } else {
        r := Ok(None);
      }
    }

    /** A row with this id (any one, if ids repeat), or None. */
    method GetListingById(id: Uuid) returns (r: Result<Option<Listing>>)
      ensures GetListingByIdOp in failing <==> r.Err?
      ensures r.Ok? ==> (r.value.Some? <==> exists k :: k in listings && listings[k].id == id)
      ensures r.Ok? && r.value.Some? ==> r.value.value in listings.Values && r.value.value.id == id
    {
      if GetListingByIdOp in failing {
        return Err("get listing by id");
      }
      if k :| k in listings && listings[k].id == id {
        r := Ok(Some(listings[k]));
      } else {
        r := Ok(None);
      }
    }

    /** LIMIT 1 over the property's active listings: one of them, or None. */
    method GetActiveListingForProperty(propertyId: Uuid) returns (r: Result<Option<Listing>>)
      ensures GetActiveListingOp in failing <==> r.Err?
      ensures r.Ok? ==>
        (r.value.Some? <==> exists k :: k in listings && listings[k].propertyId == propertyId && listings[k].status == StatusActive)
      ensures r.Ok? && r.value.Some? ==>
        r.value.value in listings.Values && r.value.value.propertyId == propertyId && r.value.value.status == StatusActive
    {
      if GetActiveListingOp in failing {
        return Err("get active listing");
      }
      if k :| k in listings && listings[k].propertyId == propertyId && listings[k].status == StatusActive {
        r := Ok(Some(listings[k]));
      } else {
        r := Ok(None);
      }
    }

    /** UPDATE listings SET status, delisted_at, updated_at WHERE id = $1. */
    method UpdateListingStatus(id: Uuid, status: string, delistedAt: Option<Time>, now: Time) returns (r: Result<()>)
      modifies this`listings
      ensures UpdateListingStatusOp in failing <==> r.Err?
      ensures r.Err? ==> listings == old(listings)
      ensures r.Ok? ==>
        listings == (map k | k in old(listings) ::
          if old(listings)[k].id == id
          then old(listings)[k].(status := status, delistedAt := delistedAt, updatedAt := now)
          else old(listings)[k])
    {
      if UpdateListingStatusOp in failing {
        return Err("update listing status");
      }
      listings := map k | k in listings ::
        if listings[k].id == id then listings[k].(status := status, delistedAt := delistedAt, updatedAt := now)
        else listings[k];
      r := Ok(());
    }

    /** UPDATE listings SET price, updated_at, last_seen WHERE id = $1. */
    method UpdateListingPrice(id: Uuid, price: int, now: Time) returns (r: Result<()>)
      modifies this`listings
      ensures UpdateListingPriceOp in failing <==> r.Err?
      ensures r.Err? ==> listings == old(listings)
      ensures r.Ok? ==> listings == RepricedRows(old(listings), id, price, now)
    {
      if UpdateListingPriceOp in failing {
        return Err("update listing price");
      }
      listings := RepricedRows(listings, id, price, now);
      r := Ok(());
    }

    /** UPDATE listings SET last_seen, updated_at WHERE id = $1. */
    method TouchListing(id: Uuid, now: Time) returns (r: Result<()>)
      modifies this`listings
      ensures TouchListingOp in failing <==> r.Err?
      ensures r.Err? ==> listings == old(listings)
      ensures r.Ok? ==> listings == TouchedRows(old(listings), id, now)
    {
      if TouchListingOp in failing {
        return Err("touch listing");
      }
      listings := TouchedRows(listings, id, now);
      r := Ok(());
    }

    /**
     * Active listings last seen before `staleBefore`, least recently seen
     * first, at most `limit` of them. A negative LIMIT is a database error.
     */
    method GetStaleActiveListings(staleBefore: Time, limit: int) returns (r: Result<seq<Listing>>, ghost keys: seq<ListingKey>)
      ensures (GetStaleListingsOp in failing || limit < 0) <==> r.Err?
      ensures r.Ok? ==> |keys| == |r.value|
      ensures r.Ok? ==> forall i :: 0 <= i < |keys| ==>
        keys[i] in listings && r.value[i] == listings[keys[i]] && IsStaleActive(r.value[i], staleBefore)
      ensures r.Ok? ==> forall i, j :: 0 <= i < j < |keys| ==> keys[i] != keys[j]
      ensures r.Ok? ==> forall i, j :: 0 <= i < j < |keys| ==> r.value[i].lastSeen <= r.value[j].lastSeen
      ensures r.Ok? ==> |keys| <= limit
      ensures r.Ok? && |keys| < limit ==>
        forall k :: k in listings && IsStaleActive(listings[k], staleBefore) ==> k in keys
      ensures r.Ok? ==> forall k, i :: k in listings && IsStaleActive(listings[k], staleBefore) && k !in keys && 0 <= i < |keys| ==>
        r.value[i].lastSeen <= listings[k].lastSeen
    {
      if GetStaleListingsOp in failing || limit < 0 {
        return Err("get stale listings"), [];
      }
      var rows := listings;
      var eligible := set k | k in rows && IsStaleActive(rows[k], staleBefore);
      var ks := TakeOldest(eligible, k => if k in rows then rows[k].lastSeen else 0, limit);
      keys := ks;
      r := Ok(RowsAt(rows, ks));
    }

    // -------------------------------------------------------------------
    // Events and price points (insert-only)
    // -------------------------------------------------------------------

    method CreatePropertyEvent(e: PropertyEvent) returns (r: Result<()>)
      modifies this`events
      ensures CreateEventOp in failing <==> r.Err?
      ensures events == if r.Ok? then old(events) + [e] else old(events)
    {
      if CreateEventOp in failing {
        return Err("create event");
      }
      events := events + [e];
      r := Ok(());
    }

    method CreatePricePoint(pp: PricePoint) returns (r: Result<()>)
      modifies this`pricePoints
      ensures CreatePricePointOp in failing <==> r.Err?
      ensures pricePoints == if r.Ok? then old(pricePoints) + [pp] else old(pricePoints)
    {
      if CreatePricePointOp in failing {
        return Err("create price point");
      }
      pricePoints := pricePoints + [pp];
      r := Ok(());
    }

    // -------------------------------------------------------------------
    // Property links
    // -------------------------------------------------------------------

    method UpsertPropertyLink(pl: PropertyLink) returns (r: Result<()>)
      modifies this`links
      ensures UpsertLinkOp in failing <==> r.Err?
      ensures r.Err? ==> links == old(links)
      ensures r.Ok? ==> links == old(links)[pl.url :=
        if pl.url in old(links) then MergeLink(old(links)[pl.url], pl) else pl]
    {
      if UpsertLinkOp in failing {
        return Err("upsert link");
      }
      if pl.url in links {
        links := links[pl.url := MergeLink(links[pl.url], pl)];
      } else {
        links := links[pl.url := pl];
      }
      r := Ok(());
    }

    /** UPDATE property_links SET is_active = false, last_seen_at WHERE listing_id = $1. */
    method DeactivateLinksForListing(listingId: Uuid, now: Time) returns (r: Result<()>)
      modifies this`links
      ensures DeactivateLinksOp in failing <==> r.Err?
      ensures r.Err? ==> links == old(links)
      ensures r.Ok? ==> links == DeactivatedLinks(old(links), listingId, now)
    {
      if DeactivateLinksOp in failing {
        return Err("deactivate links");
      }
      links := DeactivatedLinks(links, listingId, now);
      r := Ok(());
    }

    // -------------------------------------------------------------------
    // Media
    // -------------------------------------------------------------------

    /** Inserts or merges on original_url; the result is the stored row's id. */
    method UpsertMedia(m: Media) returns (r: Result<Uuid>)
      modifies this`media
      ensures UpsertMediaOp in failing <==> r.Err?
      ensures r.Err? ==> media == old(media)
      ensures r.Ok? && m.originalUrl in old(media) ==>
        r.value == old(media)[m.originalUrl].id
        && media == old(media)[m.originalUrl := MergeMedia(old(media)[m.originalUrl], m)]
      ensures r.Ok? && m.originalUrl !in old(media) ==>
        r.value == m.id && media == old(media)[m.originalUrl := m]
    {
      if UpsertMediaOp in failing {
        return Err("upsert media");
      }
      if m.originalUrl in media {
        var stored := media[m.originalUrl];
        media := media[m.originalUrl := MergeMedia(stored, m)];
        r := Ok(stored.id);
      } else {
        media := media[m.originalUrl := m];
        r := Ok(m.id);
      }
    }

    method GetMediaByOriginalUrl(url: string) returns (r: Result<Option<Media>>)
      ensures GetMediaByUrlOp in failing <==> r.Err?
      ensures r.Ok? ==> (r.value.Some? <==> url in media)
      ensures r.Ok? && r.value.Some? ==> r.value.value == media[url]
    {
      if GetMediaByUrlOp in failing {
        return Err("get media");
      }
      if url in media {
        r := Ok(Some(media[url]));
      } else {
        r := Ok(None);
      }
    }

    /**
     * The id of a row already stored under this S3 key, or uuid.Nil. The
     * method is called by the worker but not defined in the store's file;
     * this is the lookup its call site needs.
     */
    method GetMediaByS3Key(key: string) returns (r: Result<Uuid>)
      ensures GetMediaByS3KeyOp in failing <==> r.Err?
      ensures r.Ok? && r.value != NilUuid ==>
        exists u :: u in media && media[u].s3Key == Some(key) && media[u].id == r.value
      ensures r.Ok? && r.value == NilUuid ==>
        forall u :: u in media && media[u].s3Key == Some(key) ==> media[u].id == NilUuid
    {
      if GetMediaByS3KeyOp in failing {
        return Err("get media by key");
      }
      if u :| u in media && media[u].s3Key == Some(key) && media[u].id != NilUuid {
        r := Ok(media[u].id);
      } else {
        r := Ok(NilUuid);
      }
    }

    /** Pending rows with fewer than 3 attempts, oldest first, at most `limit`. */
    method GetPendingMedia(limit: int) returns (r: Result<seq<Media>>, ghost urls: seq<string>)
      ensures (GetPendingMediaOp in failing || limit < 0) <==> r.Err?
      ensures r.Ok? ==> |urls| == |r.value| <= limit
      ensures r.Ok? ==> forall i :: 0 <= i < |urls| ==>
        urls[i] in media && r.value[i] == media[urls[i]] && IsPendingMedia(r.value[i])
      ensures r.Ok? ==> forall i, j :: 0 <= i < j < |urls| ==> urls[i] != urls[j]
      ensures r.Ok? ==> forall i, j :: 0 <= i < j < |urls| ==> r.value[i].createdAt <= r.value[j].createdAt
      ensures r.Ok? && |urls| < limit ==> forall u :: u in media && IsPendingMedia(media[u]) ==> u in urls
      ensures r.Ok? ==> forall u, i :: u in media && IsPendingMedia(media[u]) && u !in urls && 0 <= i < |urls| ==>
        r.value[i].createdAt <= media[u].createdAt
    {
      if GetPendingMediaOp in failing || limit < 0 {
        return Err("get pending media"), [];
      }
      var rows := media;
      var eligible := set u | u in rows && IsPendingMedia(rows[u]);
      var us := TakeOldest(eligible, u => if u in rows then rows[u].createdAt else 0, limit);
      urls := us;
      r := Ok(RowsAt(rows, us));
    }

    /**
     * UPDATE media SET status, s3_key = COALESCE($3, s3_key), content_hash,
     * attempts WHERE id = $1. The hash is a Go string, so it always overwrites.
     */
    method UpdateMediaStatus(id: Uuid, status: string, s3Key: Option<string>, contentHash: string, attempts: int)
      returns (r: Result<()>)
      modifies this`media
      ensures UpdateMediaStatusOp in failing <==> r.Err?
      ensures r.Err? ==> media == old(media)
      ensures r.Ok? ==> media == MediaStatusSet(old(media), id, status, s3Key, contentHash, attempts)
    {
      if UpdateMediaStatusOp in failing {
        return Err("update media status");
      }
      media := MediaStatusSet(media, id, status, s3Key, contentHash, attempts);
      r := Ok(());
    }

    method UpsertListingMedia(listingId: Uuid, mediaId: Uuid, position: int) returns (r: Result<()>)
      modifies this`listingMedia
      ensures UpsertListingMediaOp in failing <==> r.Err?
      ensures listingMedia == if r.Ok? then old(listingMedia)[(listingId, mediaId) := position] else old(listingMedia)
    {
      if UpsertListingMediaOp in failing {
        return Err("upsert listing media");
      }
      listingMedia := listingMedia[(listingId, mediaId) := position];
      r := Ok(());
    }

    // -------------------------------------------------------------------
    // Brokerages and agents
    // -------------------------------------------------------------------

    /** Inserts or merges on id (not on name); logo_id is only written on insert. */
    method UpsertBrokerage(b: Brokerage) returns (r: Result<Uuid>)
      modifies this`brokerages
      ensures UpsertBrokerageOp in failing <==> r.Err?
      ensures r.Err? ==> brokerages == old(brokerages)
      ensures r.Ok? ==> r.value == b.id && brokerages == old(brokerages)[b.id :=
        if b.id in old(brokerages) then MergeBrokerage(old(brokerages)[b.id], b) else b]
    {
      if UpsertBrokerageOp in failing {
        return Err("upsert brokerage");
      }
      if b.id in brokerages {
        brokerages := brokerages[b.id := MergeBrokerage(brokerages[b.id], b)];
      } else {
        brokerages := brokerages[b.id := b];
      }
      r := Ok(b.id);
    }

    method GetBrokerageByName(name: string) returns (r: Result<Option<Brokerage>>)
      ensures GetBrokerageByNameOp in failing <==> r.Err?
      ensures r.Ok? ==> (r.value.Some? <==> exists id :: id in brokerages && brokerages[id].name == name)
      ensures r.Ok? && r.value.Some? ==> r.value.value in brokerages.Values && r.value.value.name == name
    {
      if GetBrokerageByNameOp in failing {
        return Err("get brokerage");
      }
      if id :| id in brokerages && brokerages[id].name == name {
        r := Ok(Some(brokerages[id]));
      } else {
        r := Ok(None);
      }
    }

    /** Inserts or merges on id. */
    method UpsertAgent(a: Agent) returns (r: Result<Uuid>)
      modifies this`agents
      ensures UpsertAgentOp in failing <==> r.Err?
      ensures r.Err? ==> agents == old(agents)
      ensures r.Ok? ==> r.value == a.id && agents == old(agents)[a.id :=
        if a.id in old(agents) then MergeAgent(old(agents)[a.id], a) else a]
    {
      if UpsertAgentOp in failing {
        return Err("upsert agent");
      }
      if a.id in agents {
        agents := agents[a.id := MergeAgent(agents[a.id], a)];
      } else {
        agents := agents[a.id := a];
      }
      r := Ok(a.id);
    }

    /** An agent with this name under this brokerage, or with no brokerage when it is None. */
    method GetAgentByNameAndBrokerage(name: string, brokerageId: Option<Uuid>) returns (r: Result<Option<Agent>>)
      ensures GetAgentOp in failing <==> r.Err?
      ensures r.Ok? ==>
        (r.value.Some? <==> exists id :: id in agents && agents[id].fullName == name && agents[id].brokerageId == brokerageId)
      ensures r.Ok? && r.value.Some? ==>
        r.value.value in agents.Values && r.value.value.fullName == name && r.value.value.brokerageId == brokerageId
    {
      if GetAgentOp in failing {
        return Err("get agent");
      }
      if id :| id in agents && agents[id].fullName == name && agents[id].brokerageId == brokerageId {
        r := Ok(Some(agents[id]));
      } else {
        r := Ok(None);
      }
    }

    method UpsertListingAgent(listingId: Uuid, agentId: Uuid, role: string) returns (r: Result<()>)
      modifies this`listingAgents
      ensures UpsertListingAgentOp in failing <==> r.Err?
      ensures listingAgents == if r.Ok? then old(listingAgents)[(listingId, agentId) := role] else old(listingAgents)
    {
      if UpsertListingAgentOp in failing {
        return Err("upsert listing agent");
      }
      listingAgents := listingAgents[(listingId, agentId) := role];
      r := Ok(());
    }

    // -------------------------------------------------------------------
    // Property matches
    // -------------------------------------------------------------------

    /** ON CONFLICT (matched_id, incoming_id) DO NOTHING; a conflict is not an error. */
    method InsertPropertyMatch(pm: PropertyMatch) returns (r: Result<()>)
      modifies this`matches
      ensures InsertMatchOp in failing <==> r.Err?
      ensures var k := (pm.matchedId, pm.incomingId);
        matches == if r.Ok? && k !in old(matches) then old(matches)[k := pm] else old(matches)
    {
      if InsertMatchOp in failing {
        return Err("insert match");
      }
      var k := (pm.matchedId, pm.incomingId);
      if k !in matches {
        matches := matches[k := pm];
      }
      r := Ok(());
    }

    /**
     * The rows of the candidate query of the match service, in an unspecified
     * order; `keys` names the fingerprint key of each row.
     */
    method QueryMatchCandidates(excludeId: Uuid, city: string, postal: string, prefix: string)
      returns (r: Result<seq<DomainProperty>>, ghost keys: seq<string>)
      ensures QueryCandidatesOp in failing <==> r.Err?
      ensures r.Ok? ==> |keys| == |r.value|
      ensures r.Ok? ==> forall i :: 0 <= i < |keys| ==>
        keys[i] in properties && r.value[i] == properties[keys[i]]
        && IsMatchCandidate(r.value[i], excludeId, city, postal, prefix)
      ensures r.Ok? ==> forall i, j :: 0 <= i < j < |keys| ==> keys[i] != keys[j]
      ensures r.Ok? ==> forall k :: k in properties && IsMatchCandidate(properties[k], excludeId, city, postal, prefix) ==> k in keys
    {
      if QueryCandidatesOp in failing {
        return Err("query match candidates"), [];
      }
      var rows := properties;
      var eligible := set k | k in rows && IsMatchCandidate(rows[k], excludeId, city, postal, prefix);
      var ks := TakeOldest(eligible, k => 0, |eligible|);
      keys := ks;
      r := Ok(RowsAt(rows, ks));
    }
  }
}
