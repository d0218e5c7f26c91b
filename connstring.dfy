/**
 * maskConnectionString (main.go): the password of a database URL is
 * replaced by "****" before the URL is logged. After the first "://", the
 * first ':' that comes before the first '@' ends the user name; everything
 * from there up to that '@' is the password.
 */
module ConnString {
  import opened Util

  const Mask4 := "****"

  // ---------------------------------------------------------------------
  // The specification
  // ---------------------------------------------------------------------

  /** A "://" starts at i. */
  predicate SepAt(s: string, i: nat)
    requires i + 3 <= |s|
  {
    s[i] == ':' && s[i + 1] == '/' && s[i + 2] == '/'
  }

  /** SepAt is the comparison of three bytes with "://". */
  lemma SepAtSlice(s: string, i: nat)
    requires i + 3 <= |s|
    ensures SepAt(s, i) <==> s[i..i + 3] == "://"
  {
    assert s[i..i + 3][0] == s[i] && s[i..i + 3][1] == s[i + 1] && s[i..i + 3][2] == s[i + 2];
  }

  /**
   * One past the first "://" found at an index from i on; the search stops
   * three bytes before the end, so a "://" that ends the text is not found.
   * 0 when there is none.
   */
  function SchemeFrom(s: string, i: nat): (e: nat)
    ensures e == 0 || (i + 3 <= e < |s| && SepAt(s, e - 3))
    decreases |s| - i
  {
    if i + 3 >= |s| then 0
    else if SepAt(s, i) then i + 3
    else SchemeFrom(s, i + 1)
  }

  /** Where the user part starts: after the first "://", or 0 when there is none. */
  function SchemeEnd(s: string): nat
  {
    SchemeFrom(s, 0)
  }

  /** The first '@' at or after start, or |s|. */
  function AtIndex(s: string, start: nat): (at: nat)
    requires start <= |s|
    ensures start <= at <= |s|
  {
    start + IndexOfChar(s[start..], '@')
  }

  /** The first ':' from start up to at, or at. */
  function ColonIndex(s: string, start: nat, at: nat): (colon: nat)
    requires start <= at <= |s|
    ensures start <= colon <= at
  {
    start + IndexOfChar(s[start..at], ':')
  }

  /** The masked text: unchanged unless a scheme, then a ':' and then an '@' are found. */
  function Mask(s: string): (r: string)
  {
    var start := SchemeEnd(s);
    if start == 0 then s else MaskAfter(s, start)
  }

  /** The masked text once the user part is known to start at `start`. */
  function MaskAfter(s: string, start: nat): string
    requires start <= |s|
  {
    var at := AtIndex(s, start);
    var colon := ColonIndex(s, start, at);
    if at < |s| && colon < at then s[..colon + 1] + Mask4 + s[at..] else s
  }

  // ---------------------------------------------------------------------
  // The loops of maskConnectionString
  // ---------------------------------------------------------------------

  method MaskConnectionString(connStr: string) returns (r: string)
    ensures r == Mask(connStr)
  {
    var start := FindScheme(connStr);
    if start == 0 {
      return connStr;
    }
    var colonIdx, atIdx := FindColonAndAt(connStr, start);
    if colonIdx > 0 && atIdx > colonIdx {
      MaskOfIndices(connStr, colonIdx, atIdx);
      return connStr[..colonIdx + 1] + "****" + connStr[atIdx..];
    }
    MaskKept(connStr);
    return connStr;
  }

  /** The first loop: the index one past the first "://", or 0. */
  method FindScheme(connStr: string) returns (start: nat)
    ensures start == SchemeEnd(connStr)
  {
    start := 0;
    var i := 0;
    while i < |connStr| - 3
      invariant 0 <= i
      invariant SchemeFrom(connStr, i) == SchemeEnd(connStr)
    {
      SepAtSlice(connStr, i);
      if connStr[i..i + 3] == "://" {
        start := i + 3;
        return;
      }
      i := i + 1;
    }
  }

  /**
   * The second loop: the first '@' from start (-1 when there is none) and the
   * first ':' from start that comes before it (-1 when there is none).
   */
  method FindColonAndAt(connStr: string, start: nat) returns (colonIdx: int, atIdx: int)
    requires 0 < start <= |connStr|
    ensures var at := AtIndex(connStr, start);
      (atIdx == -1 <==> at == |connStr|) && (atIdx != -1 ==> atIdx == at)
    ensures atIdx != -1 ==>
      var colon := ColonIndex(connStr, start, atIdx);
      (colonIdx == -1 <==> colon == atIdx) && (colonIdx != -1 ==> colonIdx == colon)
  {
    colonIdx := -1;
    atIdx := -1;
    var i := start;
    while i < |connStr|
      invariant start <= i <= |connStr|
      invariant forall j :: start <= j < i ==> connStr[j] != '@'
      invariant colonIdx == -1 ==> forall j :: start <= j < i ==> connStr[j] != ':'
      invariant colonIdx != -1 ==> start <= colonIdx < i && connStr[colonIdx] == ':'
      invariant colonIdx != -1 ==> forall j :: start <= j < colonIdx ==> connStr[j] != ':'
    {
      if connStr[i] == ':' && colonIdx == -1 {
        colonIdx := i;
      }
      if connStr[i] == '@' {
        atIdx := i;
        FirstCharIn(connStr, start, |connStr|, '@', atIdx);
        if colonIdx != -1 {
          FirstCharIn(connStr, start, atIdx, ':', colonIdx);
        } else {
          NoCharIn(connStr, start, atIdx, ':');
        }
        return;
      }
      i := i + 1;
    }
    NoCharIn(connStr, start, |connStr|, '@');
  }

  /** The first c in s[lo..hi] is at n when s[n] is c and none comes before it. */
  lemma FirstCharIn(s: string, lo: nat, hi: nat, c: char, n: nat)
    requires lo <= n < hi <= |s| && s[n] == c
    requires forall j :: lo <= j < n ==> s[j] != c
    ensures IndexOfChar(s[lo..hi], c) == n - lo
    ensures hi == |s| ==> IndexOfChar(s[lo..], c) == n - lo
  {
    var x := s[lo..hi];
    assert x[n - lo] == s[n];
    forall k | 0 <= k < n - lo ensures x[k] != c {
      assert x[k] == s[lo + k];
    }
    assert hi == |s| ==> s[lo..] == x;
  }

  /** No c in s[lo..hi]: the search runs to the end of the slice. */
  lemma NoCharIn(s: string, lo: nat, hi: nat, c: char)
    requires lo <= hi <= |s|
    requires forall j :: lo <= j < hi ==> s[j] != c
    ensures IndexOfChar(s[lo..hi], c) == hi - lo
    ensures hi == |s| ==> IndexOfChar(s[lo..], c) == hi - lo
  {
    var x := s[lo..hi];
    assert c !in x by {
      forall k | 0 <= k < |x| ensures x[k] != c {
        assert x[k] == s[lo + k];
      }
    }
    assert hi == |s| ==> s[lo..] == x;
  }

  // ---------------------------------------------------------------------
  // Properties
  // ---------------------------------------------------------------------

  /** The scheme search finds the first "://" that starts before the last three bytes. */
  lemma {:induction false} SchemeFromFirst(s: string, i: nat)
    ensures SchemeFrom(s, i) == 0 ==> forall j :: i <= j && j + 3 < |s| ==> !SepAt(s, j)
    ensures SchemeFrom(s, i) > 0 ==> forall j :: i <= j < SchemeFrom(s, i) - 3 ==> !SepAt(s, j)
    decreases |s| - i
  {
    if i + 3 < |s| && !SepAt(s, i) {
      SchemeFromFirst(s, i + 1);
    }
  }

  /** Text without a "://" (before its last three bytes) is logged as it is. */
  lemma MaskNoScheme(s: string)
    requires forall j :: 0 <= j && j + 3 < |s| ==> !SepAt(s, j)
    ensures Mask(s) == s
  {
  }

  /**
   * The masked case, stated by positions: after the scheme, at the first '@',
   * with the first ':' before it, the bytes between the ':' and the '@' become
   * "****" and everything else is kept.
   */
  lemma MaskAt(s: string, colon: nat, at: nat)
    requires 0 < SchemeEnd(s) <= colon < at < |s|
    requires s[colon] == ':' && s[at] == '@'
    requires forall j :: SchemeEnd(s) <= j < colon ==> s[j] != ':'
    requires forall j :: SchemeEnd(s) <= j < at ==> s[j] != '@'
    ensures Mask(s) == s[..colon + 1] + Mask4 + s[at..]
  {
    AtIndexIs(s, SchemeEnd(s), at);
    ColonIndexIs(s, SchemeEnd(s), at, colon);
    MaskOfIndices(s, colon, at);
  }

  /** The first '@' from start is at `at` when none comes before it. */
  lemma AtIndexIs(s: string, start: nat, at: nat)
    requires start <= at < |s| && s[at] == '@'
    requires forall j :: start <= j < at ==> s[j] != '@'
    ensures AtIndex(s, start) == at
  {
    FirstCharIn(s, start, |s|, '@', at);
  }

  /** The first ':' from start up to at is at `colon` when none comes before it. */
  lemma ColonIndexIs(s: string, start: nat, at: nat, colon: nat)
    requires start <= colon < at <= |s| && s[colon] == ':'
    requires forall j :: start <= j < colon ==> s[j] != ':'
    ensures ColonIndex(s, start, at) == colon
  {
    FirstCharIn(s, start, at, ':', colon);
  }

  /** Mask in terms of the positions it finds. */
  lemma MaskOfIndices(s: string, colon: nat, at: nat)
    requires 0 < SchemeEnd(s) <= colon < at < |s|
    requires AtIndex(s, SchemeEnd(s)) == at && ColonIndex(s, SchemeEnd(s), at) == colon
    ensures Mask(s) == s[..colon + 1] + Mask4 + s[at..]
  {
    assert Mask(s) == MaskAfter(s, SchemeEnd(s));
  }

  /** Mask keeps the text when it finds no '@' or no ':' before it. */
  lemma MaskKept(s: string)
    requires SchemeEnd(s) > 0
    requires var at := AtIndex(s, SchemeEnd(s)); at == |s| || ColonIndex(s, SchemeEnd(s), at) == at
    ensures Mask(s) == s
  {
  }

  /** Without an '@' after the scheme the text is logged as it is. */
  lemma MaskNoAt(s: string)
    requires SchemeEnd(s) > 0
    requires forall j :: SchemeEnd(s) <= j < |s| ==> s[j] != '@'
    ensures Mask(s) == s
  {
    NoCharIn(s, SchemeEnd(s), |s|, '@');
  }

  /** Without a ':' between the scheme and the first '@' the text is logged as it is. */
  lemma MaskNoColon(s: string, at: nat)
    requires 0 < SchemeEnd(s) <= at < |s| && s[at] == '@'
    requires forall j :: SchemeEnd(s) <= j < at ==> s[j] != '@' && s[j] != ':'
    ensures Mask(s) == s
  {
    var start := SchemeEnd(s);
    FirstCharIn(s, start, |s|, '@', at);
    assert AtIndex(s, start) == at;
    NoCharIn(s, start, at, ':');
    assert ColonIndex(s, start, at) == at;
  }

  /** Texts that agree up to one past a scheme have that scheme. */
  lemma {:induction false} SchemeSame(s: string, t: string, i: nat)
    requires SchemeFrom(s, i) > 0 && SchemeFrom(s, i) < |t|
    requires s[..SchemeFrom(s, i)] == t[..SchemeFrom(s, i)]
    ensures SchemeFrom(t, i) == SchemeFrom(s, i)
    decreases |s| - i
  {
    var e := SchemeFrom(s, i);
    assert s[i] == s[..e][i] && s[i + 1] == s[..e][i + 1] && s[i + 2] == s[..e][i + 2];
    assert t[i] == t[..e][i] && t[i + 1] == t[..e][i + 1] && t[i + 2] == t[..e][i + 2];
    if !SepAt(s, i) {
      SchemeSame(s, t, i + 1);
    }
  }

  /** What Mask finds in the masked case. */
  lemma MaskedParts(s: string)
    requires SchemeEnd(s) > 0
    requires var at := AtIndex(s, SchemeEnd(s)); at < |s| && ColonIndex(s, SchemeEnd(s), at) < at
    ensures var start := SchemeEnd(s);
      var at := AtIndex(s, start);
      var colon := ColonIndex(s, start, at);
      s[at] == '@' && s[colon] == ':'
      && (forall j :: start <= j < at ==> s[j] != '@')
      && (forall j :: start <= j < colon ==> s[j] != ':')
  {
    var start := SchemeEnd(s);
    var at := AtIndex(s, start);
    var colon := ColonIndex(s, start, at);
    assert s[start..][at - start] == s[at];
    assert s[start..at][colon - start] == s[colon];
    forall j | start <= j < at ensures s[j] != '@' {
      assert s[start..][j - start] == s[j];
    }
    forall j | start <= j < colon ensures s[j] != ':' {
      assert s[start..at][j - start] == s[j];
    }
  }

  /** The characters of a masked text, by position. */
  lemma MaskedChars(s: string, start: nat, colon: nat, at: nat)
    requires 0 < start <= colon < at < |s| && s[colon] == ':' && s[at] == '@'
    requires forall j :: start <= j < at ==> s[j] != '@'
    requires forall j :: start <= j < colon ==> s[j] != ':'
    ensures var m := s[..colon + 1] + Mask4 + s[at..];
      |m| == colon + 5 + |s| - at && m[..start] == s[..start]
      && m[colon] == ':' && m[colon + 5] == '@'
      && (forall j :: start <= j < colon + 5 ==> m[j] != '@')
      && (forall j :: start <= j < colon ==> m[j] != ':')
      && m[..colon + 1] == s[..colon + 1] && m[colon + 5..] == s[at..]
  {
    var m := s[..colon + 1] + Mask4 + s[at..];
    forall j | 0 <= j <= colon ensures m[j] == s[j] { }
    assert m[..start] == s[..start];
    assert m[..colon + 1] == s[..colon + 1];
    assert m[colon + 5..] == s[at..];
  }

  /** Masking a masked text changes nothing. */
  lemma MaskIdempotent(s: string)
    ensures Mask(Mask(s)) == Mask(s)
  {
    var start := SchemeEnd(s);
    if start > 0 {
      var at := AtIndex(s, start);
      var colon := ColonIndex(s, start, at);
      if at < |s| && colon < at {
        MaskOfIndices(s, colon, at);
        MaskedParts(s);
        MaskedFixed(s, start, colon, at);
      }
    }
  }

  /** A masked text is left as it is by a second mask. */
  lemma MaskedFixed(s: string, start: nat, colon: nat, at: nat)
    requires start == SchemeEnd(s) && 0 < start <= colon < at < |s| && s[colon] == ':' && s[at] == '@'
    requires forall j :: start <= j < at ==> s[j] != '@'
    requires forall j :: start <= j < colon ==> s[j] != ':'
    ensures Mask(s[..colon + 1] + Mask4 + s[at..]) == s[..colon + 1] + Mask4 + s[at..]
  {
    var m := s[..colon + 1] + Mask4 + s[at..];
    MaskedChars(s, start, colon, at);
    SchemeSame(s, m, 0);
    MaskAt(m, colon, colon + 5);
  }
}
