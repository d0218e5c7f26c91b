/**
 * The realtor.ca JSON API scraper (scraper/api_handler.go): the text helpers
 * the whole scraper package shares (digit concatenation, space-and-tab trim,
 * address splitting, the city part, photo selection), the mapping from one
 * API result to a RawListing, and the pagination loop.
 *
 * The HTTP request itself is an input: a page is the status code and the
 * decoded result list (or the decode error) the server's answer gave.
 */
module ApiHandler {
  import opened Util
  import opened Models

  const RealtorBase := "https://www.realtor.ca"
  const RecordsPerPage := 200

  // ---------------------------------------------------------------------
  // parsePrice / parseSqFt (and parsePriceString / parseSqFtString)
  // ---------------------------------------------------------------------

  /** The decimal digits of s, in order. */
  function OnlyDigits(s: string): (r: string)
    ensures |r| <= |s|
    ensures forall i :: 0 <= i < |r| ==> IsDigit(r[i])
  {
    if s == [] then []
    else OnlyDigits(s[..|s| - 1]) + (if IsDigit(s[|s| - 1]) then [s[|s| - 1]] else [])
  }

  /** The number the digit-concatenating parsers return for s. */
  function DigitsOf(s: string): nat
  {
    DigitsValue(OnlyDigits(s))
  }

  /** The parsers' loop: every decimal digit is shifted in, every other character is skipped. */
  method ParseAllDigits(s: string) returns (r: nat)
    ensures r == DigitsValue(OnlyDigits(s))
  {
    r := 0;
    var i := 0;
    while i < |s|
      invariant 0 <= i <= |s|
      invariant r == DigitsValue(OnlyDigits(s[..i]))
    {
      ghost var p, o := s[..i + 1], OnlyDigits(s[..i]);
      assert p[..|p| - 1] == s[..i] && p[|p| - 1] == s[i];
      if IsDigit(s[i]) {
        assert OnlyDigits(p) == o + [s[i]];
        assert (o + [s[i]])[..|o|] == o;
        assert DigitsValue(o + [s[i]]) == 10 * DigitsValue(o) + DigitValue(s[i]);
        r := r * 10 + DigitValue(s[i]);
        assert r == DigitsValue(OnlyDigits(p));
      } else {
        assert OnlyDigits(p) == o;
        assert r == DigitsValue(OnlyDigits(p));
      }
      i := i + 1;
    }
    assert s[..i] == s;
  }

  lemma {:induction false} OnlyDigitsConcat(a: string, b: string)
    ensures OnlyDigits(a + b) == OnlyDigits(a) + OnlyDigits(b)
    decreases |b|
  {
    if b == [] {
      assert a + b == a;
    } else {
      var b' := b[..|b| - 1];
      assert (a + b)[..|a + b| - 1] == a + b';
      OnlyDigitsConcat(a, b');
    }
  }

  lemma {:induction false} OnlyDigitsOfDigits(s: string)
    requires forall i :: 0 <= i < |s| ==> IsDigit(s[i])
    ensures OnlyDigits(s) == s
  {
    if s != [] {
      OnlyDigitsOfDigits(s[..|s| - 1]);
    }
  }

  /** A plain decimal numeral reads back as its value. */
  lemma DigitsOfNat(n: nat)
    ensures DigitsOf(NatToString(n)) == n
  {
    OnlyDigitsOfDigits(NatToString(n));
    DigitsValueOfNat(n);
  }

  /** A non-digit anywhere (a currency sign, a thousands comma, a decimal point) changes nothing. */
  lemma DigitsOfSkips(a: string, c: char, b: string)
    requires !IsDigit(c)
    ensures DigitsOf(a + [c] + b) == DigitsOf(a + b)
  {
    OnlyDigitsConcat(a + [c], b);
    OnlyDigitsConcat(a, [c]);
    OnlyDigitsConcat(a, b);
    assert [c][..0] == [];
    assert OnlyDigits([c]) == [];
    assert OnlyDigits(a + [c]) == OnlyDigits(a);
  }

  // ---------------------------------------------------------------------
  // trimSpace (and trimStr): spaces and tabs only
  // ---------------------------------------------------------------------

  predicate IsBlank(c: char) { c == ' ' || c == '\t' }

  function TrimLeftBlank(s: string): (r: string)
    ensures |r| <= |s|
    ensures r == [] || !IsBlank(r[0])
  {
    if s != [] && IsBlank(s[0]) then TrimLeftBlank(s[1..]) else s
  }

  function TrimRightBlank(s: string): (r: string)
    ensures |r| <= |s|
    ensures r == [] || !IsBlank(r[|r| - 1])
  {
    if s != [] && IsBlank(s[|s| - 1]) then TrimRightBlank(s[..|s| - 1]) else s
  }

  /** s without its leading and trailing spaces and tabs; other white space stays. */
  function TrimBlank(s: string): (r: string)
    ensures r == [] || (!IsBlank(r[0]) && !IsBlank(r[|r| - 1]))
  {
    TrimRightBlankPrefix(TrimLeftBlank(s));
    TrimRightBlank(TrimLeftBlank(s))
  }

  /** Trimming the front leaves a suffix, trimming the back a prefix. */
  lemma {:induction false} TrimLeftBlankSuffix(s: string)
    ensures HasSuffix(s, TrimLeftBlank(s))
  {
    if s != [] && IsBlank(s[0]) {
      TrimLeftBlankSuffix(s[1..]);
      assert s[1..][|s| - 1 - |TrimLeftBlank(s)|..] == s[|s| - |TrimLeftBlank(s)|..];
    }
  }

  lemma {:induction false} TrimRightBlankPrefix(s: string)
    ensures HasPrefix(s, TrimRightBlank(s))
  {
    if s != [] && IsBlank(s[|s| - 1]) {
      TrimRightBlankPrefix(s[..|s| - 1]);
      assert s[..|s| - 1][..|TrimRightBlank(s)|] == s[..|TrimRightBlank(s)|];
    }
  }

  /** Only spaces and tabs are removed from the front. */
  lemma {:induction false} TrimLeftBlankRemoves(s: string)
    ensures forall i :: 0 <= i < |s| - |TrimLeftBlank(s)| ==> IsBlank(s[i])
  {
    if s != [] && IsBlank(s[0]) {
      var t := s[1..];
      TrimLeftBlankRemoves(t);
      assert TrimLeftBlank(s) == TrimLeftBlank(t);
      forall i | 1 <= i < |s| - |TrimLeftBlank(s)|
        ensures IsBlank(s[i])
      {
        assert s[i] == t[i - 1];
      }
    }
  }

  /** Only spaces and tabs are removed from the back. */
  lemma {:induction false} TrimRightBlankRemoves(s: string)
    ensures forall i :: |TrimRightBlank(s)| <= i < |s| ==> IsBlank(s[i])
  {
    if s != [] && IsBlank(s[|s| - 1]) {
      var t := s[..|s| - 1];
      TrimRightBlankRemoves(t);
      assert TrimRightBlank(s) == TrimRightBlank(t);
      forall i | |TrimRightBlank(s)| <= i < |s| - 1
        ensures IsBlank(s[i])
      {
        assert s[i] == t[i];
      }
    }
  }

  lemma TrimLeftBlankNone(s: string)
    requires s == [] || !IsBlank(s[0])
    ensures TrimLeftBlank(s) == s
  {
  }

  lemma TrimRightBlankNone(s: string)
    requires s == [] || !IsBlank(s[|s| - 1])
    ensures TrimRightBlank(s) == s
  {
  }

  lemma TrimLeftBlankStep(s: string)
    requires s != [] && IsBlank(s[0])
    ensures TrimLeftBlank(s) == TrimLeftBlank(s[1..])
  {
  }

  lemma TrimRightBlankStep(s: string)
    requires s != [] && IsBlank(s[|s| - 1])
    ensures TrimRightBlank(s) == TrimRightBlank(s[..|s| - 1])
  {
  }

  /** Trimming twice is trimming once. */
  lemma TrimBlankIdempotent(s: string)
    ensures TrimBlank(TrimBlank(s)) == TrimBlank(s)
  {
    var t := TrimBlank(s);
    TrimLeftBlankNone(t);
    TrimRightBlankNone(t);
  }

  /** The two index loops of trimSpace: advance the start, then pull back the end. */
  method TrimSpaceTab(s: string) returns (r: string)
    ensures r == TrimBlank(s)
  {
    var start := SkipBlankFront(s);
    var end := SkipBlankBack(s, start);
    r := s[start..end];
  }

  /** The first loop of trimSpace: the start of the text without its leading blanks. */
  method SkipBlankFront(s: string) returns (start: nat)
    ensures start <= |s| && s[start..] == TrimLeftBlank(s)
  {
    start := 0;
    while start < |s| && IsBlank(s[start])
      invariant 0 <= start <= |s|
      invariant TrimLeftBlank(s[start..]) == TrimLeftBlank(s)
    {
      TrimLeftBlankStep(s[start..]);
      assert s[start..][1..] == s[start + 1..];
      start := start + 1;
    }
    TrimLeftBlankNone(s[start..]);
  }

  /** The second loop of trimSpace: the end of the text without its trailing blanks. */
  method SkipBlankBack(s: string, start: nat) returns (end: nat)
    requires start <= |s| && s[start..] == TrimLeftBlank(s)
    ensures start <= end <= |s| && s[start..end] == TrimBlank(s)
  {
    end := |s|;
    assert s[start..end] == s[start..];
    while end > start && IsBlank(s[end - 1])
      invariant start <= end <= |s|
      invariant TrimRightBlank(s[start..end]) == TrimBlank(s)
    {
      TrimRightBlankAt(s, start, end);
      end := end - 1;
    }
    TrimRightBlankNone(s[start..end]);
  }

  /** Dropping a trailing blank from the slice s[start..end] does not change its right trim. */
  lemma TrimRightBlankAt(s: string, start: nat, end: nat)
    requires start < end <= |s| && IsBlank(s[end - 1])
    ensures TrimRightBlank(s[start..end]) == TrimRightBlank(s[start..end - 1])
  {
    TrimRightBlankStep(s[start..end]);
    assert s[start..end][..end - 1 - start] == s[start..end - 1];
  }

  // ---------------------------------------------------------------------
  // splitAddress / extractCity (and extractCityFromAddress)
  // ---------------------------------------------------------------------

  predicate IsAddressSep(c: char) { c == '|' || c == ',' }

  /** Index of the first '|' or ',', or |s| when there is none. */
  function IndexOfSep(s: string): (i: nat)
    ensures i <= |s|
    ensures i < |s| ==> IsAddressSep(s[i])
    ensures forall j :: 0 <= j < i ==> !IsAddressSep(s[j])
  {
    if s == [] then 0 else if IsAddressSep(s[0]) then 0 else 1 + IndexOfSep(s[1..])
  }

  /** The raw pieces between separators, empty ones included: the reference reading of an address. */
  function Segments(s: string): (r: seq<string>)
    ensures |r| >= 1
    decreases |s|
  {
    var i := IndexOfSep(s);
    if i == |s| then [s] else [s[..i]] + Segments(s[i + 1..])
  }

  /** No raw piece contains a separator. */
  lemma {:induction false} SegmentsNoSep(s: string)
    ensures forall i, j :: 0 <= i < |Segments(s)| && 0 <= j < |Segments(s)[i]| ==> !IsAddressSep(Segments(s)[i][j])
    decreases |s|
  {
    var k := IndexOfSep(s);
    if k < |s| {
      SegmentsNoSep(s[k + 1..]);
      var r := Segments(s);
      assert r == [s[..k]] + Segments(s[k + 1..]);
      forall i, j | 0 <= i < |r| && 0 <= j < |r[i]|
        ensures !IsAddressSep(r[i][j])
      {
        if i == 0 {
          assert r[i][j] == s[j];
        } else {
          assert r[i] == Segments(s[k + 1..])[i - 1];
        }
      }
    }
  }

  /** The rule the scan uses to keep a finished piece. */
  predicate Keeps(p: string, keepBlank: bool)
  {
    if keepBlank then p != "" else TrimBlank(p) != ""
  }

  /** A finished piece as the scan records it: trimmed, or nothing when the rule drops it. */
  function Piece(p: string, keepBlank: bool): (r: seq<string>)
    ensures |r| <= 1
  {
    if Keeps(p, keepBlank) then [TrimBlank(p)] else []
  }

  /**
   * The pieces an address scan keeps, trimmed. splitAddress keeps every
   * non-empty raw piece (a blank one becomes ""), extractCityFromAddress only
   * the pieces that are non-empty once trimmed.
   */
  function Kept(segs: seq<string>, keepBlank: bool): (r: seq<string>)
    ensures |r| <= |segs|
    ensures forall i :: 0 <= i < |r| ==> keepBlank || r[i] != ""
  {
    if segs == [] then []
    else
      Piece(segs[0], keepBlank) + Kept(segs[1..], keepBlank)
  }

  /** The scan's state: the parts so far and the piece being read. */
  datatype ScanState = ScanState(parts: seq<string>, current: string)

  /** One character of the scan loop. */
  function ScanStep(st: ScanState, c: char, keepBlank: bool): ScanState
  {
    if IsAddressSep(c) then ScanState(st.parts + Piece(st.current, keepBlank), "")
    else ScanState(st.parts, st.current + [c])
  }

  /** The scan loop run over s from state st. */
  function Scan(st: ScanState, s: string, keepBlank: bool): ScanState
    decreases |s|
  {
    if s == [] then st else Scan(ScanStep(st, s[0], keepBlank), s[1..], keepBlank)
  }

  /** What the scan returns once the input is used up: the last piece goes in on the same rule. */
  function Finish(st: ScanState, keepBlank: bool): seq<string>
  {
    st.parts + Piece(st.current, keepBlank)
  }

  /** splitAddress: the non-empty raw pieces, each trimmed (so "  " gives ""). */
  function SplitAddress(s: string): seq<string>
  {
    Finish(Scan(ScanState([], ""), s, true), true)
  }

  /** A scan over separator-free text only extends the current piece. */
  lemma {:induction false} ScanPlain(st: ScanState, s: string, keepBlank: bool)
    requires forall j :: 0 <= j < |s| ==> !IsAddressSep(s[j])
    ensures Scan(st, s, keepBlank) == ScanState(st.parts, st.current + s)
    decreases |s|
  {
    if s != [] {
      ScanPlain(ScanStep(st, s[0], keepBlank), s[1..], keepBlank);
      assert st.current + [s[0]] + s[1..] == st.current + s;
    }
  }

  lemma KeptCons(p: string, segs: seq<string>, keepBlank: bool)
    ensures Kept([p] + segs, keepBlank) == Piece(p, keepBlank) + Kept(segs, keepBlank)
  {
    assert ([p] + segs)[0] == p && ([p] + segs)[1..] == segs;
  }

  /** The scan agrees with the reference reading: it keeps exactly Kept(Segments(s)). */
  lemma {:induction false} ScanSegments(parts: seq<string>, current: string, s: string, keepBlank: bool)
    ensures Finish(Scan(ScanState(parts, current), s, keepBlank), keepBlank)
            == parts + Kept([current + Segments(s)[0]] + Segments(s)[1..], keepBlank)
    decreases |s|
  {
    var i := IndexOfSep(s);
    var segs := Segments(s);
    if i == |s| {
      ScanSegmentsLast(parts, current, s, keepBlank);
    } else {
      var p := current + s[..i];
      var k1 := Piece(p, keepBlank);
      ScanSegments(parts + k1, "", s[i + 1..], keepBlank);
      ScanSegmentsSep(parts, current, s, keepBlank);
    }
  }

  /** The step of ScanSegments across the first separator, given the claim for the text after it. */
  lemma ScanSegmentsSep(parts: seq<string>, current: string, s: string, keepBlank: bool)
    requires IndexOfSep(s) < |s|
    requires var i := IndexOfSep(s); var p := current + s[..i];
      var k1 := Piece(p, keepBlank);
      var rs := Segments(s[i + 1..]);
      Finish(Scan(ScanState(parts + k1, ""), s[i + 1..], keepBlank), keepBlank)
      == (parts + k1) + Kept([[] + rs[0]] + rs[1..], keepBlank)
    ensures Finish(Scan(ScanState(parts, current), s, keepBlank), keepBlank)
            == parts + Kept([current + Segments(s)[0]] + Segments(s)[1..], keepBlank)
  {
    var i := IndexOfSep(s);
    var p := current + s[..i];
    var rs := Segments(s[i + 1..]);
    ScanSepSplit(ScanState(parts, current), s, i, keepBlank);
    SegmentsGlue(current, s);
    ghost var lhs := Finish(Scan(ScanState(parts, current), s, keepBlank), keepBlank);
    assert lhs == (parts + Piece(p, keepBlank)) + Kept(rs, keepBlank);
    KeptGlue(parts, current, s, keepBlank);
  }

  /** The right-hand side of ScanSegments across the first separator. */
  lemma KeptGlue(parts: seq<string>, current: string, s: string, keepBlank: bool)
    requires IndexOfSep(s) < |s|
    ensures var i := IndexOfSep(s);
      parts + Kept([current + Segments(s)[0]] + Segments(s)[1..], keepBlank)
      == (parts + Piece(current + s[..i], keepBlank)) + Kept(Segments(s[i + 1..]), keepBlank)
  {
    var i := IndexOfSep(s);
    var p := current + s[..i];
    var rs := Segments(s[i + 1..]);
    SegmentsGlue(current, s);
    KeptCons(p, rs, keepBlank);
  }

  /** How the piece being read joins the first raw piece, before and after a separator. */
  lemma SegmentsGlue(current: string, s: string)
    requires IndexOfSep(s) < |s|
    ensures var i := IndexOfSep(s); var rs := Segments(s[i + 1..]);
      && [current + Segments(s)[0]] + Segments(s)[1..] == [current + s[..i]] + rs
      && [[] + rs[0]] + rs[1..] == rs
  {
    SegmentsAtSep(s);
    FreshHead(Segments(s[IndexOfSep(s) + 1..]));
  }

  /** Across the first separator, the first raw piece is the text before it and the rest are those after it. */
  lemma SegmentsAtSep(s: string)
    requires IndexOfSep(s) < |s|
    ensures var i := IndexOfSep(s);
      Segments(s)[0] == s[..i] && Segments(s)[1..] == Segments(s[i + 1..])
  {
    var i := IndexOfSep(s);
    var rs := Segments(s[i + 1..]);
    assert Segments(s) == [s[..i]] + rs;
    assert ([s[..i]] + rs)[1..] == rs;
  }

  /** A fresh piece that is then given the first raw piece is that piece. */
  lemma FreshHead(rs: seq<string>)
    requires rs != []
    ensures [[] + rs[0]] + rs[1..] == rs
  {
    assert [] + rs[0] == rs[0];
    assert [rs[0]] + rs[1..] == rs;
  }

  /** Text without a separator is the last piece. */
  lemma ScanSegmentsLast(parts: seq<string>, current: string, s: string, keepBlank: bool)
    requires IndexOfSep(s) == |s|
    ensures Finish(Scan(ScanState(parts, current), s, keepBlank), keepBlank)
            == parts + Kept([current + Segments(s)[0]] + Segments(s)[1..], keepBlank)
  {
    ScanPlain(ScanState(parts, current), s, keepBlank);
    var segs := Segments(s);
    assert segs == [s];
    assert [current + segs[0]] + segs[1..] == [current + s] + [];
    KeptCons(current + s, [], keepBlank);
  }

  /** Across the first separator at i, the scan finishes the piece current + s[..i] and starts afresh. */
  lemma ScanSepSplit(st: ScanState, s: string, i: nat, keepBlank: bool)
    requires i < |s| && IsAddressSep(s[i]) && forall j :: 0 <= j < i ==> !IsAddressSep(s[j])
    ensures var p := st.current + s[..i];
      Scan(st, s, keepBlank)
      == Scan(ScanState(st.parts + Piece(p, keepBlank), ""), s[i + 1..], keepBlank)
  {
    var a, rest := s[..i], s[i + 1..];
    var tail := [s[i]] + rest;
    assert s == a + tail;
    ScanOver(st, a, tail, keepBlank);
    ScanPlain(st, a, keepBlank);
    var st0 := ScanState(st.parts, st.current + a);
    assert tail[0] == s[i] && tail[1..] == rest;
    assert Scan(st0, tail, keepBlank) == Scan(ScanStep(st0, s[i], keepBlank), rest, keepBlank);
    assert Scan(st, s, keepBlank) == Scan(st0, tail, keepBlank);
    var p := st.current + a;
    assert ScanStep(st0, s[i], keepBlank) == ScanState(st.parts + Piece(p, keepBlank), "");
  }

  /** The scan over a + b is the scan over b from the state after a. */
  lemma {:induction false} ScanOver(st: ScanState, a: string, b: string, keepBlank: bool)
    ensures Scan(st, a + b, keepBlank) == Scan(Scan(st, a, keepBlank), b, keepBlank)
    decreases |a|
  {
    if a != [] {
      assert (a + b)[0] == a[0] && (a + b)[1..] == a[1..] + b;
      ScanOver(ScanStep(st, a[0], keepBlank), a[1..], b, keepBlank);
    } else {
      assert a + b == b;
    }
  }

  /** splitAddress reads an address as its non-empty raw pieces, each trimmed. */
  lemma SplitAddressSegments(s: string)
    ensures SplitAddress(s) == Kept(Segments(s), true)
  {
    ScanSegments([], "", s, true);
    var segs := Segments(s);
    assert [] + segs[0] == segs[0];
    assert [segs[0]] + segs[1..] == segs;
  }

  /** No part contains a separator, and no part starts or ends in a space or tab. */
  lemma SplitAddressParts(s: string)
    ensures forall i :: 0 <= i < |SplitAddress(s)| ==>
      TrimBlank(SplitAddress(s)[i]) == SplitAddress(s)[i]
      && forall j :: 0 <= j < |SplitAddress(s)[i]| ==> !IsAddressSep(SplitAddress(s)[i][j])
  {
    SplitAddressSegments(s);
    SegmentsNoSep(s);
    KeptParts(Segments(s), true);
  }

  lemma {:induction false} KeptParts(segs: seq<string>, keepBlank: bool)
    requires forall i, j :: 0 <= i < |segs| && 0 <= j < |segs[i]| ==> !IsAddressSep(segs[i][j])
    ensures forall i :: 0 <= i < |Kept(segs, keepBlank)| ==>
      TrimBlank(Kept(segs, keepBlank)[i]) == Kept(segs, keepBlank)[i]
      && forall j :: 0 <= j < |Kept(segs, keepBlank)[i]| ==> !IsAddressSep(Kept(segs, keepBlank)[i][j])
  {
    if segs != [] {
      KeptParts(segs[1..], keepBlank);
      var p := segs[0];
      TrimBlankIdempotent(p);
      TrimBlankInside(p);
    }
  }

  /** Trimming keeps a contiguous piece of the input, so it adds no separator. */
  lemma TrimBlankInside(p: string)
    requires forall j :: 0 <= j < |p| ==> !IsAddressSep(p[j])
    ensures forall j :: 0 <= j < |TrimBlank(p)| ==> !IsAddressSep(TrimBlank(p)[j])
  {
    var l := TrimLeftBlank(p);
    TrimLeftBlankSuffix(p);
    assert forall j :: 0 <= j < |l| ==> l[j] == p[|p| - |l| + j];
    var t := TrimRightBlank(l);
    TrimRightBlankPrefix(l);
    assert forall j :: 0 <= j < |t| ==> t[j] == l[j];
  }

  /** The address-splitting loop of splitAddress (keepBlank) and of extractCityFromAddress (not keepBlank). */
  method ScanAddress(addr: string, keepBlank: bool) returns (parts: seq<string>)
    ensures parts == Kept(Segments(addr), keepBlank)
  {
    parts := [];
    var current := "";
    var i := 0;
    while i < |addr|
      invariant 0 <= i <= |addr|
      invariant Scan(ScanState(parts, current), addr[i..], keepBlank) == Scan(ScanState([], ""), addr, keepBlank)
    {
      assert addr[i..][0] == addr[i] && addr[i..][1..] == addr[i + 1..];
      var c := addr[i];
      if IsAddressSep(c) {
        ghost var before := parts;
        var t := TrimSpaceTab(current);
        if (if keepBlank then current != "" else t != "") {
          parts := parts + [t];
        }
        assert parts == before + Piece(current, keepBlank);
        current := "";
      } else {
        current := current + [c];
      }
      i := i + 1;
    }
    ghost var scanned := parts;
    var t := TrimSpaceTab(current);
    if (if keepBlank then current != "" else t != "") {
      parts := parts + [t];
    }
    assert parts == Finish(ScanState(scanned, current), keepBlank);
    ScanSegments([], "", addr, keepBlank);
    var segs := Segments(addr);
    assert [] + segs[0] == segs[0];
    assert [segs[0]] + segs[1..] == segs;
  }

  /** extractCity: the second-to-last part of splitAddress, or "" with fewer than two parts. */
  function ExtractCity(address: string): (r: string)
    ensures |SplitAddress(address)| < 2 ==> r == ""
    ensures |SplitAddress(address)| >= 2 ==> r == SplitAddress(address)[|SplitAddress(address)| - 2]
    ensures forall j :: 0 <= j < |r| ==> !IsAddressSep(r[j])
  {
    SplitAddressParts(address);
    var parts := SplitAddress(address);
    if |parts| >= 2 then parts[|parts| - 2] else ""
  }

  // ---------------------------------------------------------------------
  // extractPhotos (and extractPhotoURLs and the adapters' photo helpers)
  // ---------------------------------------------------------------------

  datatype Photo = Photo(highResPath: string, lowResPath: string)

  predicate HasPath(p: Photo) { p.highResPath != "" || p.lowResPath != "" }

  /** The high-res path, or the low-res one when there is no high-res path. */
  function BestPath(p: Photo): (u: string)
    requires HasPath(p)
    ensures u != ""
    ensures u == p.highResPath || (p.highResPath == "" && u == p.lowResPath)
  {
    if p.highResPath != "" then p.highResPath else p.lowResPath
  }

  /** The photos that have some path, in order. */
  function WithPath(photos: seq<Photo>): (r: seq<Photo>)
    ensures |r| <= |photos|
    ensures forall k :: 0 <= k < |r| ==> HasPath(r[k])
  {
    if photos == [] then []
    else
      var last := photos[|photos| - 1];
      WithPath(photos[..|photos| - 1]) + (if HasPath(last) then [last] else [])
  }

  /** Exactly the photos with a path are kept. */
  lemma {:induction false} WithPathMembers(photos: seq<Photo>)
    ensures forall p :: p in WithPath(photos) <==> p in photos && HasPath(p)
  {
    if photos != [] {
      var init := photos[..|photos| - 1];
      WithPathMembers(init);
      assert photos == init + [photos[|photos| - 1]];
    }
  }

  /** One URL per photo of `photos`, in order. */
  function BestPaths(photos: seq<Photo>): (r: seq<string>)
    requires forall k :: 0 <= k < |photos| ==> HasPath(photos[k])
    ensures |r| == |photos|
    ensures forall i :: 0 <= i < |r| ==> r[i] == BestPath(photos[i]) && r[i] != ""
  {
    if photos == [] then [] else BestPaths(photos[..|photos| - 1]) + [BestPath(photos[|photos| - 1])]
  }

  /** One more photo adds its best path, when it has one. */
  lemma PhotoStep(photos: seq<Photo>, i: nat)
    requires i < |photos|
    ensures BestPaths(WithPath(photos[..i + 1]))
            == BestPaths(WithPath(photos[..i])) + (if HasPath(photos[i]) then [BestPath(photos[i])] else [])
  {
    var before := WithPath(photos[..i]);
    var p := photos[i];
    assert photos[..i + 1][..i] == photos[..i];
    if HasPath(p) {
      assert WithPath(photos[..i + 1]) == before + [p];
      assert (before + [p])[..|before|] == before;
    } else {
      assert WithPath(photos[..i + 1]) == before;
    }
  }

  /** The photo loop: photos without a path are skipped, the others give their best path, in order. */
  method ExtractPhotos(photos: seq<Photo>) returns (urls: seq<string>)
    ensures urls == BestPaths(WithPath(photos))
  {
    urls := [];
    var i := 0;
    while i < |photos|
      invariant 0 <= i <= |photos|
      invariant urls == BestPaths(WithPath(photos[..i]))
    {
      PhotoStep(photos, i);
      var p := photos[i];
      if p.highResPath != "" {
        urls := urls + [p.highResPath];
      } else if p.lowResPath != "" {
        urls := urls + [p.lowResPath];
      }
      i := i + 1;
    }
    assert photos[..i] == photos;
  }

  // ---------------------------------------------------------------------
  // fetchRealtorCAPage: one page of the API
  // ---------------------------------------------------------------------

  /** The fields of one API result the scraper reads. */
  datatype ApiListing = ApiListing(
    id: int,
    mlsNumber: string,
    relativeUrl: string,
    price: string,
    propertyType: string,
    addressText: string,
    photos: seq<Photo>,
    bedrooms: int,
    bathroomTotal: int,
    sizeInterior: string)

  /** The RawListing of one API result; `raw` is its re-encoded JSON. */
  function ToRawListing(r: ApiListing, raw: string): (l: RawListing)
    ensures HasPrefix(l.url, RealtorBase) && l.url[|RealtorBase|..] == r.relativeUrl
    ensures l.city == ExtractCity(r.addressText) && l.address == r.addressText
    ensures l.price == DigitsOf(r.price) && l.sqft == DigitsOf(r.sizeInterior)
    ensures l.beds == r.bedrooms && l.bedsPlus == 0 && l.baths == r.bathroomTotal
    ensures l.province == "" && l.postalCode == "" && l.description == "" && l.realtor.None?
  {
    RawListing(IntToString(r.id), r.mlsNumber, r.addressText, ExtractCity(r.addressText), "", "",
               DigitsOf(r.price), r.bedrooms, 0, r.bathroomTotal, DigitsOf(r.sizeInterior), r.propertyType,
               RealtorBase + r.relativeUrl, BestPaths(WithPath(r.photos)), "", None, Some(raw))
  }

  /**
   * fetchRealtorCAPage after the request: a status other than 200 and an
   * undecodable body are errors; otherwise one listing per result, in order.
   */
  function FetchPage(status: int, body: Result<seq<ApiListing>>, marshal: ApiListing -> string): (r: Result<seq<RawListing>>)
    ensures r.Ok? <==> status == 200 && body.Ok?
    ensures r.Ok? ==> |r.value| == |body.value|
    ensures r.Ok? ==> forall i :: 0 <= i < |r.value| ==>
      r.value[i].mls == body.value[i].mlsNumber && r.value[i].url == RealtorBase + body.value[i].relativeUrl
  {
    if status != 200 then Err("realtor.ca API error")
    else if body.Err? then Err(body.msg)
    else Ok(seq(|body.value|, i requires 0 <= i < |body.value| => ToRawListing(body.value[i], marshal(body.value[i]))))
  }

  // ---------------------------------------------------------------------
  // scrapeRealtorCA: the pagination loop
  // ---------------------------------------------------------------------

  /** A page ends the scrape: it failed, or it holds fewer than a full page (none at all included). */
  predicate Stops(page: Result<seq<RawListing>>, size: nat)
  {
    page.Err? || |page.value| < size
  }

  /** The first page that ends a scrape whose full pages hold `size` results. */
  function FirstStop(pages: seq<Result<seq<RawListing>>>, size: nat): (k: nat)
    requires exists k :: 0 <= k < |pages| && Stops(pages[k], size)
    ensures k < |pages| && Stops(pages[k], size)
    ensures forall j :: 0 <= j < k ==> !Stops(pages[j], size)
  {
    if Stops(pages[0], size) then 0
    else
      assert exists k :: 0 <= k < |pages[1..]| && Stops(pages[1..][k], size) by {
        var k :| 0 <= k < |pages| && Stops(pages[k], size);
        assert k > 0 && pages[1..][k - 1] == pages[k];
      }
      1 + FirstStop(pages[1..], size)
  }

  /** The listings of the successful pages, in page order. */
  function Collected(pages: seq<Result<seq<RawListing>>>): seq<RawListing>
  {
    if pages == [] then []
    else Collected(pages[..|pages| - 1]) + (if pages[|pages| - 1].Ok? then pages[|pages| - 1].value else [])
  }

  /**
   * scrapeRealtorCA over the answers the server gives for pages 1, 2, ...
   * (pages[0] is page 1); the server is assumed to end the sequence with a
   * stopping page. A failed page discards everything collected; otherwise every
   * page up to and including the first short one is kept, in order.
   */
  method ScrapeRealtorCA(pages: seq<Result<seq<RawListing>>>) returns (r: Result<seq<RawListing>>)
    requires exists k :: 0 <= k < |pages| && Stops(pages[k], RecordsPerPage)
    ensures r.Err? <==> pages[FirstStop(pages, RecordsPerPage)].Err?
    ensures r.Ok? ==> r.value == Collected(pages[..FirstStop(pages, RecordsPerPage) + 1])
  {
    ghost var k := FirstStop(pages, RecordsPerPage);
    var all: seq<RawListing> := [];
    var i := 0;
    while true
      invariant 0 <= i <= k
      invariant all == Collected(pages[..i])
      decreases k - i
    {
      assert pages[..i + 1][..i] == pages[..i];
      var page := pages[i];
      if page.Err? {
        return Err(page.msg);
      }
      if |page.value| == 0 {
        return Ok(all);
      }
      all := all + page.value;
      if |page.value| < RecordsPerPage {
        return Ok(all);
      }
      i := i + 1;
    }
  }
}
