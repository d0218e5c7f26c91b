/**
 * Duplicate-candidate scoring (services/match.go).
 *
 * Confidence is in hundredths: 0.75 is 75. The address helpers work on
 * token lists produced by strings.Fields.
 */
module Match {
  import opened Util
  import opened Models
  import opened Postgres

  const SameAddressReason := "same_address"
  const SameBaseAddressReason := "same_base_address"
  const SamePostalReason := "same_postal"
  const SameTypeReason := "same_property_type"

  /** The tokens at which baseAddress cuts the address. */
  const UnitTokens: set<string> := {"apt", "unit", "ste", "fl", "bldg"}

  function AbsInt(v: int): (r: nat)
    ensures r == v || r == -v
  {
    if v < 0 then -v else v
  }

  function Max(a: int, b: int): int
  {
    if b > a then b else a
  }

  // ---------------------------------------------------------------------
  // Address helpers
  // ---------------------------------------------------------------------

  /** The first `minTokens` tokens joined by single spaces, or "" when there are fewer. */
  function AddressPrefix(normalized: string, minTokens: nat): string
  {
    var parts := Fields(normalized);
    if |parts| < minTokens then "" else Join(parts[..minTokens], " ")
  }

  lemma AddressPrefixTokens(normalized: string, n: nat)
    ensures |Fields(normalized)| < n ==> AddressPrefix(normalized, n) == ""
    ensures |Fields(normalized)| >= n ==> Fields(AddressPrefix(normalized, n)) == Fields(normalized)[..n]
  {
    var parts := Fields(normalized);
    if |parts| >= n {
      FieldsOfJoin(parts[..n]);
    }
  }

  predicate IsNumericToken(token: string)
  {
    token != "" && forall i :: 0 <= i < |token| ==> IsDigit(token[i])
  }

  /** The tokens before the first unit token. */
  function CutAtUnit(parts: seq<string>): (r: seq<string>)
    ensures |r| <= |parts| && r == parts[..|r|]
    ensures forall i :: 0 <= i < |r| ==> r[i] !in UnitTokens
    ensures |r| < |parts| ==> parts[|r|] in UnitTokens
  {
    if parts == [] || parts[0] in UnitTokens then []
    else [parts[0]] + CutAtUnit(parts[1..])
  }

  /** Cut at the first unit token, then drop a trailing number if 4 or more tokens remain. */
  function BaseTokens(parts: seq<string>): seq<string>
  {
    var cut := CutAtUnit(parts);
    if |cut| >= 4 && IsNumericToken(cut[|cut| - 1]) then cut[..|cut| - 1] else cut
  }

  function BaseAddress(normalized: string): string
  {
    var parts := Fields(normalized);
    if |parts| == 0 then "" else Join(BaseTokens(parts), " ")
  }

  /**
   * The base tokens are a prefix of the input holding no unit token; they are
   * shorter than the cut at the first unit token only by one trailing number,
   * and only when that cut had at least 4 tokens.
   */
  lemma BaseTokensShape(parts: seq<string>)
    ensures var b := BaseTokens(parts); var cut := CutAtUnit(parts);
      |b| <= |parts| && b == parts[..|b|]
      && (forall i :: 0 <= i < |b| ==> b[i] !in UnitTokens)
      && (|b| == |cut| || (|b| == |cut| - 1 && |cut| >= 4 && IsNumericToken(cut[|cut| - 1])))
  {
  }

  /** The base address, split again, gives back exactly the base tokens. */
  lemma BaseAddressFields(normalized: string)
    ensures Fields(BaseAddress(normalized)) == if Fields(normalized) == [] then [] else BaseTokens(Fields(normalized))
  {
    var parts := Fields(normalized);
    if parts != [] {
      var b := BaseTokens(parts);
      BaseTokensShape(parts);
      assert forall i :: 0 <= i < |b| ==> b[i] == parts[i];
      FieldsOfJoin(b);
    }
  }

  /** A unit designator and what follows it never reach the base address. */
  lemma BaseAddressExample()
    ensures BaseTokens(["12", "main", "st", "unit", "5"]) == ["12", "main", "st"]
  {
    var a := ["12", "main", "st", "unit", "5"];
    assert a[3..] == ["unit", "5"];
    assert CutAtUnit(a[3..]) == [];
    assert a[2..][1..] == a[3..];
    assert "st" !in UnitTokens by { assert |"st"| == 2 && "st"[0] != "fl"[0]; }
    assert CutAtUnit(a[2..]) == ["st"];
    assert a[1..][1..] == a[2..];
    assert "main" !in UnitTokens by { assert "main"[0] !in {'a', 'u', 's', 'f', 'b'}; }
    assert CutAtUnit(a[1..]) == ["main", "st"];
    assert "12" !in UnitTokens by { assert "12"[0] !in {'a', 'u', 's', 'f', 'b'}; }
    assert CutAtUnit(a) == ["12", "main", "st"];
  }

  // ---------------------------------------------------------------------
  // Square-footage tolerance
  // ---------------------------------------------------------------------

  /** Both positive, and within 200 sq ft or within 10% of the larger (float 0.1 taken as exact). */
  predicate CloseSqFt(a: int, b: int)
  {
    if a <= 0 || b <= 0 then false
    else if AbsInt(a - b) <= 200 then true
    else 10 * AbsInt(a - b) <= Max(a, b)
  }

  lemma CloseSqFtSymmetric(a: int, b: int)
    ensures CloseSqFt(a, b) == CloseSqFt(b, a)
  {
    assert AbsInt(a - b) == AbsInt(b - a);
    assert Max(a, b) == Max(b, a);
  }

  /** Equal positive sizes are close; a non-positive size is never close. */
  lemma CloseSqFtReflexive(a: int, b: int)
    ensures a > 0 ==> CloseSqFt(a, a)
    ensures a <= 0 ==> !CloseSqFt(a, b) && !CloseSqFt(b, a)
  {
  }

  // ---------------------------------------------------------------------
  // Scoring
  // ---------------------------------------------------------------------

  datatype MatchScore = MatchScore(confidence: int, reasons: seq<string>)

  /** strings.TrimSpace(strings.ToLower(s)) */
  function Norm(s: string): string
  {
    TrimSpace(ToLower(s))
  }

  /** The address reason: exact equality first, the base address otherwise. */
  function AddressReasons(incomingNorm: string, candidateNorm: string, baseIncoming: string): seq<string>
  {
    if incomingNorm != "" && candidateNorm != "" && incomingNorm == candidateNorm then [SameAddressReason]
    else if baseIncoming != "" && BaseAddress(candidateNorm) != "" && BaseAddress(candidateNorm) == baseIncoming
    then [SameBaseAddressReason]
    else []
  }

  predicate SamePostal(a: string, b: string)
  {
    a != "" && b != "" && a == b
  }

  predicate SameType(a: string, b: string)
  {
    a != "" && b != "" && EqualFold(a, b)
  }

  /** Beds or baths: same when equal, close when one apart, nothing when either is missing. */
  function CountReason(a: Option<int>, b: Option<int>, same: string, close: string): seq<string>
  {
    if a.Some? && b.Some? then
      var d := AbsInt(a.value - b.value);
      if d == 0 then [same] else if d == 1 then [close] else []
    else []
  }

  function SqFtReason(a: Option<int>, b: Option<int>): seq<string>
  {
    if a.Some? && b.Some? && CloseSqFt(a.value, b.value) then ["close_sqft"] else []
  }

  /** One reason per close attribute, so closeAttrCount is the length. */
  function AttrReasons(incoming: DomainProperty, candidate: DomainProperty): seq<string>
  {
    CountReason(incoming.beds, candidate.beds, "same_beds", "close_beds")
    + CountReason(incoming.baths, candidate.baths, "same_baths", "close_baths")
    + SqFtReason(incoming.sqft, candidate.sqft)
  }

  /** The reasons after the address reason, in the order they are appended. */
  function OtherReasons(incoming: DomainProperty, candidate: DomainProperty): seq<string>
  {
    (if SamePostal(incoming.postalCode, candidate.postalCode) then [SamePostalReason] else [])
    + (if SameType(incoming.propertyType, candidate.propertyType) then [SameTypeReason] else [])
    + AttrReasons(incoming, candidate)
  }

  function Reasons(incoming: DomainProperty, candidate: DomainProperty, baseIncoming: string): seq<string>
  {
    AddressReasons(Norm(incoming.addressFull), Norm(candidate.addressFull), baseIncoming)
    + OtherReasons(incoming, candidate)
  }

  /**
   * The decision and confidence of scorePotentialMatch from its parts: the
   * address reason, postal and type agreement, and the close-attribute count.
   */
  function Confidence(address: seq<string>, samePostal: bool, sameType: bool, n: nat): Option<int>
  {
    if address == [] then
      if !(samePostal && sameType && n >= 2) then None
      else
        var confidence := 55 + 5 * n;
        Some(if confidence > 85 then 85 else confidence)
    else
      var base := if address == [SameAddressReason] then 90 else 75;
      var confidence := base + 3 * n + (if samePostal then 3 else 0) + (if sameType then 3 else 0);
      Some(if confidence > 95 then 95 else confidence)
  }

  /** scorePotentialMatch: None when the candidate is rejected. */
  function ScorePotentialMatch(incoming: DomainProperty, candidate: DomainProperty, baseIncoming: string): Option<MatchScore>
  {
    var c := Confidence(
      AddressReasons(Norm(incoming.addressFull), Norm(candidate.addressFull), baseIncoming),
      SamePostal(incoming.postalCode, candidate.postalCode),
      SameType(incoming.propertyType, candidate.propertyType),
      |AttrReasons(incoming, candidate)|);
    if c.None? then None else Some(MatchScore(c.value, Reasons(incoming, candidate, baseIncoming)))
  }

  /** closeAttrCount is between 0 and 3. */
  lemma AttrCountBound(incoming: DomainProperty, candidate: DomainProperty)
    ensures 0 <= |AttrReasons(incoming, candidate)| <= 3
  {
  }

  /**
   * Without an address reason a candidate is accepted exactly when postal
   * code and type agree and at least two attributes are close, and then
   * scores 0.65 or 0.70: the 0.85 cap is never reached.
   */
  lemma WeakConfidence(samePostal: bool, sameType: bool, n: nat)
    requires n <= 3
    ensures Confidence([], samePostal, sameType, n).Some? <==> samePostal && sameType && n >= 2
    ensures Confidence([], samePostal, sameType, n).Some? ==>
      Confidence([], samePostal, sameType, n).value in {65, 70}
  {
  }

  /** An exact address match scores in [0.90, 0.95], a base-only match in [0.75, 0.90]. */
  lemma StrongConfidence(samePostal: bool, sameType: bool, n: nat)
    requires n <= 3
    ensures var c := Confidence([SameAddressReason], samePostal, sameType, n);
      c.Some? && 90 <= c.value <= 95
    ensures var c := Confidence([SameBaseAddressReason], samePostal, sameType, n);
      c.Some? && 75 <= c.value <= 90
  {
  }

  /** WeakConfidence, stated for the scorer of two properties. */
  lemma {:induction false} WeakMatchRule(incoming: DomainProperty, candidate: DomainProperty, baseIncoming: string)
    requires AddressReasons(Norm(incoming.addressFull), Norm(candidate.addressFull), baseIncoming) == []
    ensures var r := ScorePotentialMatch(incoming, candidate, baseIncoming);
      r.Some? <==> (SamePostal(incoming.postalCode, candidate.postalCode)
                    && SameType(incoming.propertyType, candidate.propertyType)
                    && |AttrReasons(incoming, candidate)| >= 2)
    ensures var r := ScorePotentialMatch(incoming, candidate, baseIncoming);
      r.Some? ==> r.value.confidence == 65 || r.value.confidence == 70
  {
    AttrCountBound(incoming, candidate);
    WeakConfidence(SamePostal(incoming.postalCode, candidate.postalCode),
      SameType(incoming.propertyType, candidate.propertyType), |AttrReasons(incoming, candidate)|);
  }

  /** Any accepted candidate scores between 0.65 and 0.95, whatever its address reason. */
  lemma {:induction false} ConfidenceBounds(incoming: DomainProperty, candidate: DomainProperty, baseIncoming: string)
    ensures var r := ScorePotentialMatch(incoming, candidate, baseIncoming);
      r.Some? ==> 65 <= r.value.confidence <= 95
  {
    var address := AddressReasons(Norm(incoming.addressFull), Norm(candidate.addressFull), baseIncoming);
    var sp := SamePostal(incoming.postalCode, candidate.postalCode);
    var st := SameType(incoming.propertyType, candidate.propertyType);
    AttrCountBound(incoming, candidate);
    var n := |AttrReasons(incoming, candidate)|;
    WeakConfidence(sp, st, n);
    StrongConfidence(sp, st, n);
    assert address == [] || address == [SameAddressReason] || address == [SameBaseAddressReason];
  }

  /**
   * "same_address" and "same_base_address" never both appear, and whichever
   * appears is the first reason.
   */
  lemma AddressReasonFirst(incoming: DomainProperty, candidate: DomainProperty, baseIncoming: string)
    ensures var rs := Reasons(incoming, candidate, baseIncoming);
      !(SameAddressReason in rs && SameBaseAddressReason in rs)
      && (SameAddressReason in rs ==> rs[0] == SameAddressReason)
      && (SameBaseAddressReason in rs ==> rs[0] == SameBaseAddressReason)
  {
    var address := AddressReasons(Norm(incoming.addressFull), Norm(candidate.addressFull), baseIncoming);
    assert address == [] || address == [SameAddressReason] || address == [SameBaseAddressReason];
    OtherReasonsAreNotAddress(incoming, candidate);
  }

  /** No attribute reason is an address reason (they differ in length). */
  lemma OtherReasonsAreNotAddress(incoming: DomainProperty, candidate: DomainProperty)
    ensures SameAddressReason !in OtherReasons(incoming, candidate)
    ensures SameBaseAddressReason !in OtherReasons(incoming, candidate)
  {
    var rest := OtherReasons(incoming, candidate);
    assert forall i :: 0 <= i < |rest| ==> |rest[i]| in {9, 10, 11, 18};
  }

  // ---------------------------------------------------------------------
  // InsertPotentialMatches
  // ---------------------------------------------------------------------

  /** The early returns: the store is queried only past these two checks. */
  predicate QueriesCandidates(incoming: DomainProperty)
  {
    incoming.addressFull != ""
    && !(incoming.postalCode == "" && AddressPrefix(Norm(incoming.addressFull), 2) == "")
  }

  /** scorePotentialMatch against this incoming property, as a function of the candidate. */
  function Scorer(incoming: DomainProperty, baseIncoming: string): DomainProperty -> Option<MatchScore>
  {
    c => ScorePotentialMatch(incoming, c, baseIncoming)
  }

  /** The scorer with the base address computed from the incoming address. */
  function MatchScorer(incoming: DomainProperty): DomainProperty -> Option<MatchScore>
  {
    Scorer(incoming, BaseAddress(Norm(incoming.addressFull)))
  }

  /** The candidate rows a scorer accepts, in row order. */
  function Accepted(rows: seq<DomainProperty>, score: DomainProperty -> Option<MatchScore>): (r: seq<DomainProperty>)
    ensures |r| <= |rows|
    ensures forall i :: 0 <= i < |r| ==> r[i] in rows && score(r[i]).Some?
    ensures forall i :: 0 <= i < |rows| && score(rows[i]).Some? ==> rows[i] in r
  {
    if rows == [] then []
    else
      var init := Accepted(rows[..|rows| - 1], score);
      var last := rows[|rows| - 1];
      assert forall i :: 0 <= i < |rows| - 1 ==> rows[..|rows| - 1][i] == rows[i];
      init + (if score(last).Some? then [last] else [])
  }

  /** The pending match row for a scored candidate. */
  function MatchRow(candidate: DomainProperty, incomingId: Uuid, score: MatchScore, now: Time): PropertyMatch
  {
    PropertyMatch(candidate.id, incomingId, score.confidence, score.reasons, "pending", now)
  }

  /** Every row of `before` is still in `after`, unchanged. */
  predicate KeepsRows(before: map<(Uuid, Uuid), PropertyMatch>, after: map<(Uuid, Uuid), PropertyMatch>)
  {
    forall k :: k in before ==> k in after && after[k] == before[k]
  }

  /** Each accepted row has a (candidate, incoming) match in `m`. */
  predicate CoversRows(m: map<(Uuid, Uuid), PropertyMatch>, rows: seq<DomainProperty>, incomingId: Uuid,
                       score: DomainProperty -> Option<MatchScore>)
  {
    forall j :: 0 <= j < |rows| && score(rows[j]).Some? ==> (rows[j].id, incomingId) in m
  }

  /** Every match of `after` not in `before` is the row of an accepted candidate, with its score. */
  predicate NewRowsFrom(before: map<(Uuid, Uuid), PropertyMatch>, after: map<(Uuid, Uuid), PropertyMatch>,
                        rows: seq<DomainProperty>, incomingId: Uuid, score: DomainProperty -> Option<MatchScore>, now: Time)
  {
    forall k :: k in after && k !in before ==>
      exists j :: 0 <= j < |rows| && IsRowOf(after, k, rows[j], incomingId, score, now)
  }

  /** Nothing added, nothing to account for. */
  lemma NoNewRows(m: map<(Uuid, Uuid), PropertyMatch>, rows: seq<DomainProperty>, incomingId: Uuid,
                  score: DomainProperty -> Option<MatchScore>, now: Time)
    ensures NewRowsFrom(m, m, rows, incomingId, score, now)
  {
  }

  predicate IsRowOf(m: map<(Uuid, Uuid), PropertyMatch>, k: (Uuid, Uuid), c: DomainProperty, incomingId: Uuid,
                    score: DomainProperty -> Option<MatchScore>, now: Time)
  {
    k in m && score(c).Some? && k == (c.id, incomingId) && m[k] == MatchRow(c, incomingId, score(c).value, now)
  }

  /** The rows the query returns: exactly the candidates of the store, each once. */
  predicate EnumeratesCandidates(rows: seq<DomainProperty>, keys: seq<string>, props: map<string, DomainProperty>,
                                 incoming: DomainProperty)
  {
    var prefix := AddressPrefix(Norm(incoming.addressFull), 2);
    |keys| == |rows|
    && (forall i :: 0 <= i < |keys| ==>
          keys[i] in props && rows[i] == props[keys[i]]
          && IsMatchCandidate(rows[i], incoming.id, incoming.city, incoming.postalCode, prefix))
    && (forall i, j :: 0 <= i < j < |keys| ==> keys[i] != keys[j])
    && (forall k :: k in props && IsMatchCandidate(props[k], incoming.id, incoming.city, incoming.postalCode, prefix) ==> k in keys)
  }

  /**
   * Scores every candidate row and inserts a pending match for each accepted
   * one; an existing (matched_id, incoming_id) pair is left as it is but still
   * counted. `rows` are the rows of the candidate query in the order the
   * database returned them.
   */
  method InsertPotentialMatches(store: Store, incoming: DomainProperty, now: Time)
    returns (count: nat, r: Result<()>, ghost rows: seq<DomainProperty>, ghost keys: seq<string>)
    modifies store`matches
    ensures !QueriesCandidates(incoming) ==> count == 0 && r.Ok? && store.matches == old(store.matches) && rows == []
    ensures QueriesCandidates(incoming) && QueryCandidatesOp in store.failing ==>
      count == 0 && r.Err? && store.matches == old(store.matches)
    ensures QueriesCandidates(incoming) && QueryCandidatesOp !in store.failing ==>
      EnumeratesCandidates(rows, keys, store.properties, incoming)
      && (r.Err? <==> InsertMatchOp in store.failing && Accepted(rows, MatchScorer(incoming)) != [])
      && (r.Ok? ==> count == |Accepted(rows, MatchScorer(incoming))| && CoversRows(store.matches, rows, incoming.id, MatchScorer(incoming)))
      && (r.Err? ==> count == 0 && store.matches == old(store.matches))
    ensures KeepsRows(old(store.matches), store.matches)
    ensures NewRowsFrom(old(store.matches), store.matches, rows, incoming.id, MatchScorer(incoming), now)
  {
    rows, keys := [], [];
    if incoming.addressFull == "" {
      return 0, Ok(()), rows, keys;
    }
    var normalized := Norm(incoming.addressFull);
    var prefix := AddressPrefix(normalized, 2);
    if incoming.postalCode == "" && prefix == "" {
      return 0, Ok(()), rows, keys;
    }
    var q;
    q, keys := store.QueryMatchCandidates(incoming.id, incoming.city, incoming.postalCode, prefix);
    if q.Err? {
      return 0, Err(q.msg), rows, keys;
    }
    var candidates := q.value;
    rows := candidates;
    assert EnumeratesCandidates(rows, keys, store.properties, incoming);
    // MatchScorer computes baseAddress(normalized) once, as the service does.
    count, r := InsertScored(store, incoming.id, candidates, MatchScorer(incoming), now);
    assert EnumeratesCandidates(rows, keys, store.properties, incoming);
  }

  /** The loop over the candidate rows, with `score` standing for scorePotentialMatch. */
  method InsertScored(store: Store, incomingId: Uuid, rows: seq<DomainProperty>,
                      score: DomainProperty -> Option<MatchScore>, now: Time)
    returns (count: nat, r: Result<()>)
    modifies store`matches
    ensures r.Err? <==> InsertMatchOp in store.failing && Accepted(rows, score) != []
    ensures r.Ok? ==> count == |Accepted(rows, score)| && CoversRows(store.matches, rows, incomingId, score)
    ensures r.Err? ==> count == 0 && store.matches == old(store.matches)
    ensures NewRowsFrom(old(store.matches), store.matches, rows, incomingId, score, now)
    ensures KeepsRows(old(store.matches), store.matches)
  {
    ghost var m0 := store.matches;
    count := 0;
    for i := 0 to |rows|
      invariant count == |Accepted(rows[..i], score)|
      invariant LoopState(m0, store.matches, rows[..i], incomingId, score, now)
      invariant InsertMatchOp in store.failing ==> Accepted(rows[..i], score) == [] && store.matches == m0
    {
      ghost var before := store.matches;
      var s := score(rows[i]);
      AcceptedStep(rows, i, score);
      if s.None? {
        LoopStateReject(m0, before, rows, i, incomingId, score, now);
        continue;
      }
      var ins := store.InsertPropertyMatch(MatchRow(rows[i], incomingId, s.value, now));
      if ins.Err? {
        AcceptedPrefix(rows, i + 1, score);
        return count, Err(ins.msg);
      }
      LoopStateAccept(m0, before, store.matches, rows, i, incomingId, score, now);
      count := count + 1;
    }
    assert rows[..|rows|] == rows;
    r := Ok(());
  }

  /** The facts the loop keeps about the match rows. */
  predicate LoopState(m0: map<(Uuid, Uuid), PropertyMatch>, m: map<(Uuid, Uuid), PropertyMatch>,
                      rows: seq<DomainProperty>, incomingId: Uuid, score: DomainProperty -> Option<MatchScore>, now: Time)
  {
    KeepsRows(m0, m) && CoversRows(m, rows, incomingId, score) && NewRowsFrom(m0, m, rows, incomingId, score, now)
  }

  lemma AcceptedStep(rows: seq<DomainProperty>, i: nat, score: DomainProperty -> Option<MatchScore>)
    requires i < |rows|
    ensures Accepted(rows[..i + 1], score)
      == Accepted(rows[..i], score) + (if score(rows[i]).Some? then [rows[i]] else [])
  {
    assert rows[..i + 1][..i] == rows[..i];
  }

  /** A longer prefix accepts at least as much. */
  lemma {:induction false} AcceptedPrefix(rows: seq<DomainProperty>, i: nat, score: DomainProperty -> Option<MatchScore>)
    requires i <= |rows|
    ensures Accepted(rows[..i], score) != [] ==> Accepted(rows, score) != []
    decreases |rows| - i
  {
    if i < |rows| {
      AcceptedStep(rows, i, score);
      AcceptedPrefix(rows, i + 1, score);
    } else {
      assert rows[..i] == rows;
    }
  }

  /** A rejected row keeps the loop facts. */
  lemma LoopStateReject(m0: map<(Uuid, Uuid), PropertyMatch>, m: map<(Uuid, Uuid), PropertyMatch>,
                        rows: seq<DomainProperty>, i: nat, incomingId: Uuid, score: DomainProperty -> Option<MatchScore>, now: Time)
    requires i < |rows| && score(rows[i]).None?
    requires LoopState(m0, m, rows[..i], incomingId, score, now)
    ensures LoopState(m0, m, rows[..i + 1], incomingId, score, now)
  {
    var p, q := rows[..i], rows[..i + 1];
    assert forall j :: 0 <= j < i ==> q[j] == p[j];
    forall k | k in m && k !in m0
      ensures exists j :: 0 <= j < |q| && IsRowOf(m, k, q[j], incomingId, score, now)
    {
      var j :| 0 <= j < |p| && IsRowOf(m, k, p[j], incomingId, score, now);
      assert q[j] == p[j];
    }
  }

  /** An accepted row, once inserted or already present, keeps the loop facts. */
  lemma LoopStateAccept(m0: map<(Uuid, Uuid), PropertyMatch>, before: map<(Uuid, Uuid), PropertyMatch>,
                        after: map<(Uuid, Uuid), PropertyMatch>, rows: seq<DomainProperty>, i: nat, incomingId: Uuid,
                        score: DomainProperty -> Option<MatchScore>, now: Time)
    requires i < |rows| && score(rows[i]).Some?
    requires var key := (rows[i].id, incomingId);
      after == if key in before then before else before[key := MatchRow(rows[i], incomingId, score(rows[i]).value, now)]
    requires LoopState(m0, before, rows[..i], incomingId, score, now)
    ensures LoopState(m0, after, rows[..i + 1], incomingId, score, now)
  {
    var p, q := rows[..i], rows[..i + 1];
    assert forall j :: 0 <= j < i ==> q[j] == p[j];
    assert q[i] == rows[i];
    forall k | k in after && k !in m0
      ensures exists j :: 0 <= j < |q| && IsRowOf(after, k, q[j], incomingId, score, now)
    {
      if k in before {
        var j :| 0 <= j < |p| && IsRowOf(before, k, p[j], incomingId, score, now);
        assert q[j] == p[j];
        assert IsRowOf(after, k, q[j], incomingId, score, now);
      } else {
        assert IsRowOf(after, k, q[i], incomingId, score, now);
      }
    }
  }

  /** Every match the service inserts is pending, names the incoming property, and scores 0.65 to 0.95. */
  lemma {:induction false} NewMatchesInRange(before: map<(Uuid, Uuid), PropertyMatch>, after: map<(Uuid, Uuid), PropertyMatch>,
                                             rows: seq<DomainProperty>, incoming: DomainProperty, now: Time)
    requires NewRowsFrom(before, after, rows, incoming.id, MatchScorer(incoming), now)
    ensures forall k :: k in after && k !in before ==>
      after[k].status == "pending" && after[k].incomingId == incoming.id && after[k].createdAt == now
      && 65 <= after[k].confidence <= 95
  {
    forall k | k in after && k !in before
      ensures after[k].status == "pending" && after[k].incomingId == incoming.id && after[k].createdAt == now
      ensures 65 <= after[k].confidence <= 95
    {
      var j :| 0 <= j < |rows| && IsRowOf(after, k, rows[j], incoming.id, MatchScorer(incoming), now);
      ConfidenceBounds(incoming, rows[j], BaseAddress(Norm(incoming.addressFull)));
    }
  }
}
