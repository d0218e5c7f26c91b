/**
 * The legacy local store (storage/sqlite.go): properties keyed by their
 * fingerprint, listing snapshots, scrape runs, potential matches and the
 * resume pages of site_stats, plus the local copy of the match scorer.
 *
 * As in the Postgres model, a call to an operation in `failing` returns an
 * error and changes nothing. A Go string is never NULL, so
 * COALESCE(excluded.postal_code, postal_code) always takes the new value.
 */
module SQLite {
  import opened Util
  import opened Models
  import opened Match

  datatype Op =
    | GetPropertyOp | UpsertPropertyOp | TouchPropertyOp | MarkSyncedOp | GetUnsyncedOp
    | CreateSnapshotOp | GetSnapshotsOp | GetLastSnapshotForPropertyOp | GetLastSnapshotByMLSOp
    | CreateRunOp | UpdateRunOp
    | QueryCandidatesOp | InsertMatchOp
    | GetResumePageOp

  /** A row of property_matches. */
  datatype LocalMatch = LocalMatch(matchedId: string, incomingId: string, confidence: int, reasons: seq<string>, status: string)

  // ---------------------------------------------------------------------
  // Row rules
  // ---------------------------------------------------------------------

  /** ON CONFLICT(id) DO UPDATE of UpsertProperty. */
  function ConflictUpdate(stored: Property, p: Property): Property
  {
    stored.(lastSeenAt := p.lastSeenAt, timesListed := p.timesListed, postalCode := p.postalCode,
            synced := false, isActive := true)
  }

  /** The row UpsertProperty leaves under `p.id`: the insert, with is_active TRUE, or the conflict update. */
  function Upserted(m: map<string, Property>, p: Property): Property
  {
    if p.id in m then ConflictUpdate(m[p.id], p) else p.(isActive := true)
  }

  /**
   * A conflict changes only last_seen_at, times_listed, postal_code, synced
   * and is_active; an empty postal code overwrites the stored one; and a
   * repeated upsert changes nothing more.
   */
  lemma ConflictUpdateFields(stored: Property, p: Property)
    ensures var r := ConflictUpdate(stored, p);
      r.id == stored.id && r.normalizedAddress == stored.normalizedAddress && r.city == stored.city
      && r.beds == stored.beds && r.bedsPlus == stored.bedsPlus && r.baths == stored.baths
      && r.sqft == stored.sqft && r.propertyType == stored.propertyType && r.firstSeenAt == stored.firstSeenAt
      && r.lastSeenAt == p.lastSeenAt && r.timesListed == p.timesListed && r.postalCode == p.postalCode
      && !r.synced && r.isActive
    ensures ConflictUpdate(ConflictUpdate(stored, p), p) == ConflictUpdate(stored, p)
  {
  }

  function NewRun(id: int, siteId: string, startedAt: Time, status: string): ScrapeRun
  {
    ScrapeRun(id, siteId, startedAt, None, status, 0, 0, 0, 0, 0)
  }

  /** UpdateRun sets the finish time, the status and the counters; site and start stay. */
  function RunUpdated(stored: ScrapeRun, run: ScrapeRun): ScrapeRun
  {
    stored.(finishedAt := run.finishedAt, status := run.status, listingsFound := run.listingsFound,
            listingsNew := run.listingsNew, propertiesNew := run.propertiesNew,
            propertiesRelisted := run.propertiesRelisted, errorsCount := run.errorsCount)
  }

  // ---------------------------------------------------------------------
  // Snapshot queries
  // ---------------------------------------------------------------------

  predicate SortedByTime(s: seq<Snapshot>)
  {
    forall i, j :: 0 <= i < j < |s| ==> s[i].scrapedAt <= s[j].scrapedAt
  }

  /** Inserts after every snapshot scraped no later, so equal times keep insertion order. */
  function InsertByTime(s: seq<Snapshot>, x: Snapshot): (r: seq<Snapshot>)
    requires SortedByTime(s)
    ensures SortedByTime(r) && multiset(r) == multiset(s) + multiset{x}
  {
    if s == [] || s[|s| - 1].scrapedAt <= x.scrapedAt then s + [x]
    else
      var init := s[..|s| - 1];
      var last := s[|s| - 1];
      assert s == init + [last];
      var r0 := InsertByTime(init, x);
      TimesBounded(r0, init, x, last.scrapedAt);
      AppendLatest(r0, last);
      r0 + [last]
  }

  /** Every snapshot of a sequence holding init and x is no later than a bound on both. */
  lemma TimesBounded(r0: seq<Snapshot>, init: seq<Snapshot>, x: Snapshot, bound: int)
    requires multiset(r0) == multiset(init) + multiset{x}
    requires x.scrapedAt <= bound
    requires forall j :: 0 <= j < |init| ==> init[j].scrapedAt <= bound
    ensures forall i :: 0 <= i < |r0| ==> r0[i].scrapedAt <= bound
  {
    forall i | 0 <= i < |r0|
      ensures r0[i].scrapedAt <= bound
    {
      assert r0[i] in multiset(r0);
      if r0[i] != x {
        assert r0[i] in multiset(init);
        var j :| 0 <= j < |init| && init[j] == r0[i];
      }
    }
  }

  /** Appending a snapshot no earlier than all the others keeps the order. */
  lemma AppendLatest(r0: seq<Snapshot>, last: Snapshot)
    requires SortedByTime(r0)
    requires forall i :: 0 <= i < |r0| ==> r0[i].scrapedAt <= last.scrapedAt
    ensures SortedByTime(r0 + [last])
  {
  }

  /** ORDER BY scraped_at, taken as a stable sort. */
  function SortByTime(s: seq<Snapshot>): (r: seq<Snapshot>)
    ensures SortedByTime(r) && multiset(r) == multiset(s)
  {
    if s == [] then []
    else
      assert s == s[..|s| - 1] + [s[|s| - 1]];
      InsertByTime(SortByTime(s[..|s| - 1]), s[|s| - 1])
  }

  /** The snapshots of one property, in insertion order. */
  function SnapshotsOf(snaps: seq<Snapshot>, propertyId: string): (r: seq<Snapshot>)
    ensures forall x :: x in r <==> x in snaps && x.propertyId == propertyId
  {
    if snaps == [] then []
    else
      var init := snaps[..|snaps| - 1];
      assert snaps == init + [snaps[|snaps| - 1]];
      SnapshotsOf(init, propertyId) + (if snaps[|snaps| - 1].propertyId == propertyId then [snaps[|snaps| - 1]] else [])
  }

  function ForProperty(propertyId: string): Snapshot -> bool
  {
    (s: Snapshot) => s.propertyId == propertyId
  }

  function ForListing(listingId: string): Snapshot -> bool
  {
    (s: Snapshot) => s.listingId == listingId
  }

  /** ORDER BY scraped_at DESC LIMIT 1 over the rows `p` selects; of equal times the later insert wins. */
  function LatestWhere(snaps: seq<Snapshot>, p: Snapshot -> bool): (r: Option<Snapshot>)
    ensures r.None? <==> forall i :: 0 <= i < |snaps| ==> !p(snaps[i])
    ensures r.Some? ==> r.value in snaps && p(r.value)
    ensures r.Some? ==> forall i :: 0 <= i < |snaps| && p(snaps[i]) ==> snaps[i].scrapedAt <= r.value.scrapedAt
  {
    if snaps == [] then None
    else
      var init := snaps[..|snaps| - 1];
      var last := snaps[|snaps| - 1];
      assert forall i :: 0 <= i < |init| ==> init[i] == snaps[i];
      var r0 := LatestWhere(init, p);
      if p(last) && (r0.None? || r0.value.scrapedAt <= last.scrapedAt) then Some(last) else r0
  }

  /**
   * The last snapshot of a property and the ordered list agree: there is
   * one exactly when the list is non-empty, and it is scraped at the time
   * of the list's last element.
   */
  lemma LatestIsLastOfSorted(snaps: seq<Snapshot>, propertyId: string)
    ensures var sorted := SortByTime(SnapshotsOf(snaps, propertyId));
      var latest := LatestWhere(snaps, ForProperty(propertyId));
      (latest.Some? <==> sorted != [])
      && (latest.Some? ==> latest.value.scrapedAt == sorted[|sorted| - 1].scrapedAt)
  {
    var own := SnapshotsOf(snaps, propertyId);
    var sorted := SortByTime(own);
    var latest := LatestWhere(snaps, ForProperty(propertyId));
    if latest.Some? {
      var l := latest.value;
      assert l in multiset(sorted);
      var z := sorted[|sorted| - 1];
      assert z in multiset(own);
      LatestBoundsSelected(snaps, propertyId, z);
      InSortedAtMostLast(sorted, l);
    }
    if sorted != [] {
      assert sorted[0] in multiset(own);
      SelectedGivesLatest(snaps, propertyId, sorted[0]);
    }
  }

  /** No element of a time-ordered list is later than its last one. */
  lemma InSortedAtMostLast(sorted: seq<Snapshot>, l: Snapshot)
    requires SortedByTime(sorted) && l in sorted
    ensures l.scrapedAt <= sorted[|sorted| - 1].scrapedAt
  {
    var j :| 0 <= j < |sorted| && sorted[j] == l;
    assert j == |sorted| - 1 || sorted[j].scrapedAt <= sorted[|sorted| - 1].scrapedAt;
  }

  /** A snapshot of the property exists, so the latest one is found. */
  lemma SelectedGivesLatest(snaps: seq<Snapshot>, propertyId: string, z: Snapshot)
    requires z in snaps && z.propertyId == propertyId
    ensures LatestWhere(snaps, ForProperty(propertyId)).Some?
  {
    var i :| 0 <= i < |snaps| && snaps[i] == z;
    assert ForProperty(propertyId)(snaps[i]);
  }

  /** Every snapshot of the property is no later than the latest one. */
  lemma LatestBoundsSelected(snaps: seq<Snapshot>, propertyId: string, z: Snapshot)
    requires z in snaps && z.propertyId == propertyId
    ensures LatestWhere(snaps, ForProperty(propertyId)).Some?
    ensures z.scrapedAt <= LatestWhere(snaps, ForProperty(propertyId)).value.scrapedAt
  {
    var i :| 0 <= i < |snaps| && snaps[i] == z;
    assert ForProperty(propertyId)(snaps[i]);
  }

  // ---------------------------------------------------------------------
  // Match candidates and the legacy scorer
  // ---------------------------------------------------------------------

  /**
   * The WHERE clause of the candidate query; each filter applies only when
   * its value is set. SQLite's LIKE ignores ASCII letter case.
   */
  predicate IsLocalCandidate(p: Property, excludeId: string, city: string, postal: string, prefix: string)
  {
    p.id != excludeId
    && (city == "" || p.city == city)
    && (postal == "" || p.postalCode == postal)
    && (prefix == "" || HasPrefix(ToLower(p.normalizedAddress), ToLower(prefix)))
  }

  /** Beds and baths of 0 or less count as missing. */
  function Positive(x: int): Option<int>
  {
    if x > 0 then Some(x) else None
  }

  function LegacyAttrReasons(incoming: Property, candidate: Property): seq<string>
  {
    CountReason(Positive(incoming.beds), Positive(candidate.beds), "same_beds", "close_beds")
    + CountReason(Positive(incoming.baths), Positive(candidate.baths), "same_baths", "close_baths")
    + (if CloseSqFt(incoming.sqft, candidate.sqft) then ["close_sqft"] else [])
  }

  function LegacyAddressReasons(incoming: Property, candidate: Property, baseIncoming: string): seq<string>
  {
    AddressReasons(incoming.normalizedAddress, candidate.normalizedAddress, baseIncoming)
  }

  /** scorePotentialMatch of storage/sqlite.go, with the thresholds and caps of the service's scorer. */
  function LegacyScore(incoming: Property, candidate: Property, baseIncoming: string): Option<MatchScore>
  {
    var address := LegacyAddressReasons(incoming, candidate, baseIncoming);
    var samePostal := SamePostal(incoming.postalCode, candidate.postalCode);
    var sameType := SameType(incoming.propertyType, candidate.propertyType);
    var attrs := LegacyAttrReasons(incoming, candidate);
    var c := Confidence(address, samePostal, sameType, |attrs|);
    if c.None? then None
    else
      Some(MatchScore(c.value, address + (if samePostal then [SamePostalReason] else [])
                                       + (if sameType then [SameTypeReason] else []) + attrs))
  }

  /** A non-positive bed or bath count scores like any other non-positive one. */
  lemma LegacyNonPositiveIsMissing(incoming: Property, candidate: Property, baseIncoming: string, x: int, y: int)
    requires x <= 0 && y <= 0
    ensures LegacyScore(incoming.(beds := x), candidate, baseIncoming) == LegacyScore(incoming.(beds := y), candidate, baseIncoming)
    ensures LegacyScore(incoming.(baths := x), candidate, baseIncoming) == LegacyScore(incoming.(baths := y), candidate, baseIncoming)
    ensures LegacyScore(incoming, candidate.(beds := x), baseIncoming) == LegacyScore(incoming, candidate.(beds := y), baseIncoming)
    ensures LegacyScore(incoming, candidate.(baths := x), baseIncoming) == LegacyScore(incoming, candidate.(baths := y), baseIncoming)
  {
  }

  /**
   * The acceptance rule and the confidence range: without an address match
   * a candidate needs the same postal code, the same type and two close
   * attributes; every accepted score is 0.65 to 0.95.
   */
  lemma LegacyScoreRule(incoming: Property, candidate: Property, baseIncoming: string)
    ensures var s := LegacyScore(incoming, candidate, baseIncoming);
      (LegacyAddressReasons(incoming, candidate, baseIncoming) == [] ==>
         (s.Some? <==> SamePostal(incoming.postalCode, candidate.postalCode)
                       && SameType(incoming.propertyType, candidate.propertyType)
                       && |LegacyAttrReasons(incoming, candidate)| >= 2))
      && (LegacyAddressReasons(incoming, candidate, baseIncoming) != [] ==> s.Some?)
      && (s.Some? ==> 65 <= s.value.confidence <= 95)
  {
    var n := |LegacyAttrReasons(incoming, candidate)|;
    assert n <= 3;
    WeakConfidence(SamePostal(incoming.postalCode, candidate.postalCode),
                   SameType(incoming.propertyType, candidate.propertyType), n);
    StrongConfidence(SamePostal(incoming.postalCode, candidate.postalCode),
                     SameType(incoming.propertyType, candidate.propertyType), n);
  }

  /** The early returns of InsertPotentialMatches: the table is queried only past these. */
  predicate LegacyQueries(incoming: Property)
  {
    var normalized := TrimSpace(incoming.normalizedAddress);
    normalized != "" && !(incoming.postalCode == "" && AddressPrefix(normalized, 2) == "")
  }

  function LegacyScorer(incoming: Property): Property -> Option<MatchScore>
  {
    var base := BaseAddress(TrimSpace(incoming.normalizedAddress));
    c => LegacyScore(incoming, c, base)
  }

  function LocalMatchRow(candidate: Property, incomingId: string, s: MatchScore): LocalMatch
  {
    LocalMatch(candidate.id, incomingId, s.confidence, s.reasons, "pending")
  }

  predicate KeepsMatches(before: map<(string, string), LocalMatch>, after: map<(string, string), LocalMatch>)
  {
    forall k :: k in before ==> k in after && after[k] == before[k]
  }

  /** The match row under `k` is the pending row of candidate `c`. */
  predicate IsMatchOf(m: map<(string, string), LocalMatch>, k: (string, string), c: Property, incomingId: string,
                      score: Property -> Option<MatchScore>)
  {
    k in m && score(c).Some? && k == (c.id, incomingId) && m[k] == LocalMatchRow(c, incomingId, score(c).value)
  }

  /** Each accepted row among the first `n` has its pair in `m`. */
  predicate Covers(m: map<(string, string), LocalMatch>, rows: seq<Property>, n: int, incomingId: string,
                   score: Property -> Option<MatchScore>)
  {
    forall j :: 0 <= j < n && j < |rows| && score(rows[j]).Some? ==> (rows[j].id, incomingId) in m
  }

  /** Every pair added since `before` is an accepted row among the first `n`. */
  predicate AddedFrom(before: map<(string, string), LocalMatch>, after: map<(string, string), LocalMatch>,
                      rows: seq<Property>, n: int, incomingId: string, score: Property -> Option<MatchScore>)
  {
    forall k :: k in after && k !in before ==>
      exists j :: 0 <= j < n && j < |rows| && IsMatchOf(after, k, rows[j], incomingId, score)
  }

  predicate NoneAccepted(rows: seq<Property>, n: int, score: Property -> Option<MatchScore>)
  {
    forall j :: 0 <= j < n && j < |rows| ==> score(rows[j]).None?
  }

  /** The loop facts of InsertPotentialMatches after `n` rows. */
  predicate InsertState(m0: map<(string, string), LocalMatch>, m: map<(string, string), LocalMatch>,
                        rows: seq<Property>, n: int, incomingId: string, score: Property -> Option<MatchScore>, count: nat)
  {
    KeepsMatches(m0, m) && m0.Keys <= m.Keys && count == |m.Keys - m0.Keys|
    && Covers(m, rows, n, incomingId, score) && AddedFrom(m0, m, rows, n, incomingId, score)
  }

  // ---------------------------------------------------------------------
  // The store
  // ---------------------------------------------------------------------

  class LocalStore {
    var properties: map<string, Property>
    var snapshots: seq<Snapshot>
    var runs: seq<ScrapeRun>
    var matches: map<(string, string), LocalMatch>
    const resumePages: map<string, Option<int>>
    const failing: set<Op>

    /** Properties sit under their id, and run ids are 1, 2, … in insertion order. */
    predicate Valid()
      reads this`properties, this`runs
    {
      (forall k :: k in properties ==> properties[k].id == k)
      && (forall i :: 0 <= i < |runs| ==> runs[i].id == i + 1)
    }

    constructor (failing: set<Op>, resumePages: map<string, Option<int>>)
      ensures Valid()
      ensures properties == map[] && snapshots == [] && runs == [] && matches == map[]
      ensures this.resumePages == resumePages && this.failing == failing
    {
      properties, snapshots, runs, matches := map[], [], [], map[];
      this.resumePages := resumePages;
      this.failing := failing;
    }

    /** GetProperty: (nil, nil) for an unknown id. */
    method GetProperty(id: string) returns (r: Result<Option<Property>>)
      ensures GetPropertyOp in failing <==> r.Err?
      ensures r.Ok? ==> r.value == if id in properties then Some(properties[id]) else None
    {
      if GetPropertyOp in failing {
        return Err("get property");
      }
      r := Ok(if id in properties then Some(properties[id]) else None);
    }

    method UpsertProperty(p: Property) returns (r: Result<()>)
      modifies this`properties
      ensures UpsertPropertyOp in failing <==> r.Err?
      ensures properties == if r.Err? then old(properties) else old(properties)[p.id := Upserted(old(properties), p)]
      ensures old(Valid()) ==> Valid()
    {
      if UpsertPropertyOp in failing {
        return Err("upsert property");
      }
      properties := properties[p.id := Upserted(properties, p)];
      r := Ok(());
    }

    /** TouchProperty: last seen at t and no longer synced. */
    method TouchProperty(id: string, t: Time) returns (r: Result<()>)
      modifies this`properties
      ensures TouchPropertyOp in failing <==> r.Err?
      ensures properties == if r.Ok? && id in old(properties)
                            then old(properties)[id := old(properties)[id].(lastSeenAt := t, synced := false)]
                            else old(properties)
      ensures old(Valid()) ==> Valid()
    {
      if TouchPropertyOp in failing {
        return Err("touch property");
      }
      if id in properties {
        properties := properties[id := properties[id].(lastSeenAt := t, synced := false)];
      }
      r := Ok(());
    }

    method MarkPropertySynced(id: string) returns (r: Result<()>)
      modifies this`properties
      ensures MarkSyncedOp in failing <==> r.Err?
      ensures properties == if r.Ok? && id in old(properties)
                            then old(properties)[id := old(properties)[id].(synced := true)]
                            else old(properties)
      ensures old(Valid()) ==> Valid()
    {
      if MarkSyncedOp in failing {
        return Err("mark synced");
      }
      if id in properties {
        properties := properties[id := properties[id].(synced := true)];
      }
      r := Ok(());
    }

    /** The unsynced rows, each once, in an unspecified order; `keys` names their ids. */
    method GetUnsyncedProperties() returns (r: Result<seq<Property>>, ghost keys: seq<string>)
      ensures GetUnsyncedOp in failing <==> r.Err?
      ensures r.Ok? ==> |keys| == |r.value|
      ensures r.Ok? ==> forall i :: 0 <= i < |keys| ==>
        keys[i] in properties && r.value[i] == properties[keys[i]] && !r.value[i].synced
      ensures r.Ok? ==> forall i, j :: 0 <= i < j < |keys| ==> keys[i] != keys[j]
      ensures r.Ok? ==> forall k :: k in properties && !properties[k].synced ==> k in keys
    {
      if GetUnsyncedOp in failing {
        return Err("get unsynced"), [];
      }
      var rows := properties;
      var eligible := set k | k in rows && !rows[k].synced;
      var ks := TakeOldest(eligible, k => 0, |eligible|);
      keys := ks;
      r := Ok(seq(|ks|, i requires 0 <= i < |ks| => rows[ks[i]]));
    }

    /** CreateSnapshot: appended with the next row id. */
    method CreateSnapshot(snap: Snapshot) returns (r: Result<()>)
      modifies this`snapshots
      ensures CreateSnapshotOp in failing <==> r.Err?
      ensures snapshots == if r.Err? then old(snapshots) else old(snapshots) + [snap.(id := |old(snapshots)| + 1)]
    {
      if CreateSnapshotOp in failing {
        return Err("create snapshot");
      }
      snapshots := snapshots + [snap.(id := |snapshots| + 1)];
      r := Ok(());
    }

    method GetSnapshotsForProperty(propertyId: string) returns (r: Result<seq<Snapshot>>)
      ensures GetSnapshotsOp in failing <==> r.Err?
      ensures r.Ok? ==> r.value == SortByTime(SnapshotsOf(snapshots, propertyId))
    {
      if GetSnapshotsOp in failing {
        return Err("get snapshots");
      }
      r := Ok(SortByTime(SnapshotsOf(snapshots, propertyId)));
    }

    method GetLastSnapshotForProperty(propertyId: string) returns (r: Result<Option<Snapshot>>)
      ensures GetLastSnapshotForPropertyOp in failing <==> r.Err?
      ensures r.Ok? ==> r.value == LatestWhere(snapshots, ForProperty(propertyId))
    {
      if GetLastSnapshotForPropertyOp in failing {
        return Err("get last snapshot");
      }
      r := Ok(LatestWhere(snapshots, ForProperty(propertyId)));
    }

    method GetLastSnapshotByMLS(listingId: string) returns (r: Result<Option<Snapshot>>)
      ensures GetLastSnapshotByMLSOp in failing <==> r.Err?
      ensures r.Ok? ==> r.value == LatestWhere(snapshots, ForListing(listingId))
    {
      if GetLastSnapshotByMLSOp in failing {
        return Err("get last snapshot");
      }
      r := Ok(LatestWhere(snapshots, ForListing(listingId)));
    }

    /** CreateRun: a run with zero counters and the next id. */
    method CreateRun(siteId: string, startedAt: Time, status: string) returns (r: Result<int>)
      modifies this`runs
      ensures CreateRunOp in failing <==> r.Err?
      ensures r.Err? ==> runs == old(runs)
      ensures r.Ok? ==> r.value == |old(runs)| + 1 && runs == old(runs) + [NewRun(r.value, siteId, startedAt, status)]
      ensures old(Valid()) ==> Valid()
    {
      if CreateRunOp in failing {
        return Err("create run");
      }
      var id := |runs| + 1;
      runs := runs + [NewRun(id, siteId, startedAt, status)];
      r := Ok(id);
    }

    /** UpdateRun: the row with the run's id takes its finish time, status and counters. */
    method UpdateRun(run: ScrapeRun) returns (r: Result<()>)
      modifies this`runs
      ensures UpdateRunOp in failing <==> r.Err?
      ensures runs == if r.Ok? && 1 <= run.id <= |old(runs)|
                      then old(runs)[run.id - 1 := RunUpdated(old(runs)[run.id - 1], run)]
                      else old(runs)
      ensures old(Valid()) ==> Valid()
    {
      if UpdateRunOp in failing {
        return Err("update run");
      }
      if 1 <= run.id <= |runs| {
        runs := runs[run.id - 1 := RunUpdated(runs[run.id - 1], run)];
      }
      r := Ok(());
    }

    /** GetResumePage: 0 without a site_stats row, and a NULL page is 0. */
    method GetResumePage(siteId: string) returns (r: Result<int>)
      ensures GetResumePageOp in failing <==> r.Err?
      ensures r.Ok? && siteId !in resumePages ==> r.value == 0
      ensures r.Ok? && siteId in resumePages ==> r.value == (if resumePages[siteId].Some? then resumePages[siteId].value else 0)
    {
      if GetResumePageOp in failing {
        return Err("get resume page");
      }
      if siteId !in resumePages {
        return Ok(0);
      }
      r := Ok(if resumePages[siteId].Some? then resumePages[siteId].value else 0);
    }

    /** The rows of the candidate query, each once, in an unspecified order. */
    method QueryCandidates(excludeId: string, city: string, postal: string, prefix: string)
      returns (r: Result<seq<Property>>, ghost keys: seq<string>)
      ensures QueryCandidatesOp in failing <==> r.Err?
      ensures r.Ok? ==> |keys| == |r.value|
      ensures r.Ok? ==> forall i :: 0 <= i < |keys| ==>
        keys[i] in properties && r.value[i] == properties[keys[i]]
        && IsLocalCandidate(r.value[i], excludeId, city, postal, prefix)
      ensures r.Ok? ==> forall i, j :: 0 <= i < j < |keys| ==> keys[i] != keys[j]
      ensures r.Ok? ==> forall k :: k in properties && IsLocalCandidate(properties[k], excludeId, city, postal, prefix) ==> k in keys
    {
      if QueryCandidatesOp in failing {
        return Err("query candidates"), [];
      }
      var rows := properties;
      var eligible := set k | k in rows && IsLocalCandidate(rows[k], excludeId, city, postal, prefix);
      var ks := TakeOldest(eligible, k => 0, |eligible|);
      keys := ks;
      r := Ok(seq(|ks|, i requires 0 <= i < |ks| => rows[ks[i]]));
    }

    /** INSERT OR IGNORE: `added` is RowsAffected > 0, false when the pair already exists. */
    method InsertMatchOrIgnore(m: LocalMatch) returns (r: Result<bool>)
      modifies this`matches
      ensures InsertMatchOp in failing <==> r.Err?
      ensures var k := (m.matchedId, m.incomingId);
        (r.Ok? ==> r.value == (k !in old(matches)))
        && matches == if r.Ok? && k !in old(matches) then old(matches)[k := m] else old(matches)
    {
      if InsertMatchOp in failing {
        return Err("insert match");
      }
      var k := (m.matchedId, m.incomingId);
      if k in matches {
        return Ok(false);
      }
      matches := matches[k := m];
      r := Ok(true);
    }
  }

  // ---------------------------------------------------------------------
  // InsertPotentialMatches
  // ---------------------------------------------------------------------

  /** The candidate rows of the query for `incoming`, as the store lists them. */
  predicate ListsCandidates(rows: seq<Property>, keys: seq<string>, props: map<string, Property>, incoming: Property)
  {
    var prefix := AddressPrefix(TrimSpace(incoming.normalizedAddress), 2);
    |keys| == |rows|
    && (forall i :: 0 <= i < |keys| ==> keys[i] in props && rows[i] == props[keys[i]]
                                           && IsLocalCandidate(rows[i], incoming.id, incoming.city, incoming.postalCode, prefix))
    && (forall k :: k in props && IsLocalCandidate(props[k], incoming.id, incoming.city, incoming.postalCode, prefix) ==> k in keys)
  }

  /**
   * InsertPotentialMatches of the local store. The count is the number of
   * pairs actually added: a pair that already exists is ignored and not
   * counted. An insert error returns the count so far.
   */
  method InsertPotentialMatches(store: LocalStore, incoming: Option<Property>)
    returns (count: nat, r: Result<()>, ghost rows: seq<Property>, ghost keys: seq<string>)
    modifies store`matches
    ensures incoming.None? || !LegacyQueries(incoming.value) ==>
      count == 0 && r.Ok? && store.matches == old(store.matches)
    ensures incoming.Some? && LegacyQueries(incoming.value) && QueryCandidatesOp in store.failing ==>
      count == 0 && r.Err? && store.matches == old(store.matches)
    ensures incoming.Some? && LegacyQueries(incoming.value) && QueryCandidatesOp !in store.failing ==>
      var inc := incoming.value;
      ListsCandidates(rows, keys, store.properties, inc)
      && (r.Ok? ==> InsertState(old(store.matches), store.matches, rows, |rows|, inc.id, LegacyScorer(inc), count))
      && (r.Err? <==> InsertMatchOp in store.failing && !NoneAccepted(rows, |rows|, LegacyScorer(inc)))
      && (r.Err? ==> count == 0 && store.matches == old(store.matches))
  {
    rows, keys := [], [];
    if incoming.None? {
      return 0, Ok(()), rows, keys;
    }
    var inc := incoming.value;
    var normalized := TrimSpace(inc.normalizedAddress);
    if normalized == "" {
      return 0, Ok(()), rows, keys;
    }
    var prefix := AddressPrefix(normalized, 2);
    if inc.postalCode == "" && prefix == "" {
      return 0, Ok(()), rows, keys;
    }
    var q;
    q, keys := store.QueryCandidates(inc.id, inc.city, inc.postalCode, prefix);
    if q.Err? {
      return 0, Err(q.msg), rows, keys;
    }
    rows := q.value;
    count, r := InsertAll(store, inc.id, q.value, LegacyScorer(inc));
  }

  /** The loop over the candidate rows. */
  method InsertAll(store: LocalStore, incomingId: string, rows: seq<Property>, score: Property -> Option<MatchScore>)
    returns (count: nat, r: Result<()>)
    modifies store`matches
    ensures r.Ok? ==> InsertState(old(store.matches), store.matches, rows, |rows|, incomingId, score, count)
    ensures r.Err? <==> InsertMatchOp in store.failing && !NoneAccepted(rows, |rows|, score)
    ensures r.Err? ==> count == 0 && store.matches == old(store.matches)
  {
    ghost var m0 := store.matches;
    count := 0;
    var i := 0;
    while i < |rows|
      invariant 0 <= i <= |rows|
      invariant InsertProgress(m0, store.matches, store.failing, rows, i, incomingId, score, count)
    {
      var added, res := InsertAt(store, incomingId, rows, score, i, count, m0);
      if res.Err? {
        return count, res;
      }
      count := added;
      i := i + 1;
    }
    r := Ok(());
  }

  /** The loop facts after `n` rows, and what a failing insert implies about them. */
  predicate InsertProgress(m0: map<(string, string), LocalMatch>, m: map<(string, string), LocalMatch>, failing: set<Op>,
                           rows: seq<Property>, n: int, incomingId: string, score: Property -> Option<MatchScore>, count: nat)
  {
    InsertState(m0, m, rows, n, incomingId, score, count)
    && (InsertMatchOp in failing ==> NoneAccepted(rows, n, score) && m == m0 && count == 0)
  }

  /** One row of the loop: scored, and inserted unless the scorer rejects it; `count'` is the new count. */
  method InsertAt(store: LocalStore, incomingId: string, rows: seq<Property>, score: Property -> Option<MatchScore>,
                  i: nat, count: nat, ghost m0: map<(string, string), LocalMatch>) returns (count': nat, r: Result<()>)
    requires i < |rows|
    requires InsertProgress(m0, store.matches, store.failing, rows, i, incomingId, score, count)
    modifies store`matches
    ensures r.Err? ==> InsertMatchOp in store.failing && score(rows[i]).Some? && store.matches == old(store.matches)
    ensures r.Ok? ==> InsertProgress(m0, store.matches, store.failing, rows, i + 1, incomingId, score, count')
  {
    var s := score(rows[i]);
    if s.Some? {
      ghost var before := store.matches;
      var ins := store.InsertMatchOrIgnore(LocalMatchRow(rows[i], incomingId, s.value));
      if ins.Err? {
        return count, Err(ins.msg);
      }
      InsertStateStep(m0, before, store.matches, rows, i, incomingId, score, count);
      count' := if ins.value then count + 1 else count;
    } else {
      InsertStateSkip(m0, store.matches, rows, i, incomingId, score, count);
      count' := count;
    }
    r := Ok(());
  }

  /** A row the scorer rejects keeps the loop facts. */
  lemma InsertStateSkip(m0: map<(string, string), LocalMatch>, m: map<(string, string), LocalMatch>,
                        rows: seq<Property>, i: nat, incomingId: string, score: Property -> Option<MatchScore>, count: nat)
    requires i < |rows| && score(rows[i]).None?
    requires InsertState(m0, m, rows, i, incomingId, score, count)
    ensures InsertState(m0, m, rows, i + 1, incomingId, score, count)
  {
    forall k | k in m && k !in m0
      ensures exists j :: 0 <= j < i + 1 && j < |rows| && IsMatchOf(m, k, rows[j], incomingId, score)
    {
      var j :| 0 <= j < i && j < |rows| && IsMatchOf(m, k, rows[j], incomingId, score);
    }
  }

  /** An accepted row, added or already present, keeps the loop facts; `count` grows when it was added. */
  lemma InsertStateStep(m0: map<(string, string), LocalMatch>, before: map<(string, string), LocalMatch>,
                        after: map<(string, string), LocalMatch>, rows: seq<Property>, i: nat, incomingId: string,
                        score: Property -> Option<MatchScore>, count: nat)
    requires i < |rows| && score(rows[i]).Some?
    requires var k := (rows[i].id, incomingId);
      after == if k in before then before else before[k := LocalMatchRow(rows[i], incomingId, score(rows[i]).value)]
    requires InsertState(m0, before, rows, i, incomingId, score, count)
    ensures var k := (rows[i].id, incomingId);
      InsertState(m0, after, rows, i + 1, incomingId, score, if k in before then count else count + 1)
  {
    var k := (rows[i].id, incomingId);
    AddedFromStep(m0, before, after, rows, i, incomingId, score);
    CoversStep(before, after, rows, i, incomingId, score);
    if k !in before {
      KeepsStep(m0, before, k, LocalMatchRow(rows[i], incomingId, score(rows[i]).value));
    }
  }

  /** Adding a key outside `before` keeps the rows of `m0` and adds one new key. */
  lemma KeepsStep(m0: map<(string, string), LocalMatch>, before: map<(string, string), LocalMatch>,
                  k: (string, string), v: LocalMatch)
    requires k !in before && KeepsMatches(m0, before) && m0.Keys <= before.Keys
    ensures KeepsMatches(m0, before[k := v]) && m0.Keys <= before[k := v].Keys
    ensures |before[k := v].Keys - m0.Keys| == |before.Keys - m0.Keys| + 1
  {
    assert before[k := v].Keys == before.Keys + {k};
    AddedKeyCount(m0.Keys, before.Keys, k);
  }

  lemma CoversStep(before: map<(string, string), LocalMatch>, after: map<(string, string), LocalMatch>,
                   rows: seq<Property>, i: nat, incomingId: string, score: Property -> Option<MatchScore>)
    requires i < |rows| && before.Keys <= after.Keys && (rows[i].id, incomingId) in after
    requires Covers(before, rows, i, incomingId, score)
    ensures Covers(after, rows, i + 1, incomingId, score)
  {
  }

  /** One more key outside the old ones adds one to the count of new keys. */
  lemma AddedKeyCount<K>(old0: set<K>, now0: set<K>, k: K)
    requires k !in now0 && old0 <= now0
    ensures |(now0 + {k}) - old0| == |now0 - old0| + 1
  {
    assert (now0 + {k}) - old0 == (now0 - old0) + {k};
  }

  lemma AddedFromStep(m0: map<(string, string), LocalMatch>, before: map<(string, string), LocalMatch>,
                      after: map<(string, string), LocalMatch>, rows: seq<Property>, i: nat, incomingId: string,
                      score: Property -> Option<MatchScore>)
    requires i < |rows| && score(rows[i]).Some?
    requires var k := (rows[i].id, incomingId);
      after == if k in before then before else before[k := LocalMatchRow(rows[i], incomingId, score(rows[i]).value)]
    requires AddedFrom(m0, before, rows, i, incomingId, score) && KeepsMatches(m0, before)
    ensures AddedFrom(m0, after, rows, i + 1, incomingId, score)
  {
    forall k' | k' in after && k' !in m0
      ensures exists j :: 0 <= j < i + 1 && j < |rows| && IsMatchOf(after, k', rows[j], incomingId, score)
    {
      if k' in before {
        var j :| 0 <= j < i && j < |rows| && IsMatchOf(before, k', rows[j], incomingId, score);
        assert IsMatchOf(after, k', rows[j], incomingId, score);
      } else {
        assert IsMatchOf(after, k', rows[i], incomingId, score);
      }
    }
  }

  /**
   * Running InsertPotentialMatches a second time on the same property adds
   * nothing and counts 0: every pair it could add is there from the first run.
   */
  method InsertTwice(store: LocalStore, incoming: Property)
    returns (first: nat, second: nat, r1: Result<()>, r2: Result<()>)
    modifies store`matches
    ensures r1.Ok? && r2.Ok? ==> second == 0
  {
    ghost var rows1, keys1, rows2, keys2;
    first, r1, rows1, keys1 := InsertPotentialMatches(store, Some(incoming));
    ghost var m1 := store.matches;
    second, r2, rows2, keys2 := InsertPotentialMatches(store, Some(incoming));
    if r1.Ok? && r2.Ok? && LegacyQueries(incoming) && QueryCandidatesOp !in store.failing {
      var score := LegacyScorer(incoming);
      assert store.matches.Keys - m1.Keys == {};
    }
  }

  // ---------------------------------------------------------------------
  // Commands
  // ---------------------------------------------------------------------

  /**
   * ParseCommandParams: no params, or the JSON text null, give empty
   * params; anything else is decoded (`decode` stands for json.Unmarshal).
   */
  function ParseCommandParams(params: Option<string>, decode: string -> Result<CommandParams>): (r: Result<CommandParams>)
    ensures params.None? || params == Some("null") ==> r == Ok(CommandParams("", ""))
    ensures params.Some? && params.value != "null" ==> r == decode(params.value)
  {
    if params.None? || params.value == "null" then Ok(CommandParams("", ""))
    else decode(params.value)
  }
}
