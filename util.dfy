/**
 * Shared value types and the small string toolkit the Go code takes from its
 * standard library (strings.ToLower, TrimSpace, Fields, Join, Split, Contains,
 * ReplaceAll, strconv.Itoa). Only the behaviour the model relies on is given,
 * and ASCII case mapping stands in for Unicode case mapping.
 */
module Util {

  datatype Option<T> = None | Some(value: T)

  datatype Result<T> = Ok(value: T) | Err(msg: string)
  {
    predicate IsOk() { Ok? }
  }

  newtype byte = x: int | 0 <= x < 256

  // ---------------------------------------------------------------------
  // Characters
  // ---------------------------------------------------------------------

  predicate IsUpper(c: char) { 'A' <= c <= 'Z' }
  predicate IsLowerLetter(c: char) { 'a' <= c <= 'z' }
  predicate IsDigit(c: char) { '0' <= c <= '9' }

  function DigitValue(c: char): (d: nat)
    requires IsDigit(c)
    ensures d < 10
  {
    (c as int) - ('0' as int)
  }

  function DigitChar(d: nat): (c: char)
    requires d < 10
    ensures IsDigit(c) && DigitValue(c) == d
  {
    (('0' as int) + d) as char
  }

  /** Go's unicode.IsSpace, used by strings.TrimSpace and strings.Fields. */
  predicate IsSpace(c: char)
  {
    c == ' ' || c == '\t' || c == '\n' || c == '\r' || c == '\U{000B}' || c == '\U{000C}'
    || c == '\U{0085}' || c == '\U{00A0}' || c == '\U{1680}'
    || ('\U{2000}' <= c <= '\U{200A}')
    || c == '\U{2028}' || c == '\U{2029}' || c == '\U{202F}' || c == '\U{205F}' || c == '\U{3000}'
  }

  /** The regular-expression class \s of Go's RE2 syntax: [\t\n\f\r ]. */
  predicate IsRegexSpace(c: char)
  {
    c == ' ' || c == '\t' || c == '\n' || c == '\U{000C}' || c == '\r'
  }

  function LowerChar(c: char): (r: char)
    ensures !IsUpper(r)
    ensures IsUpper(c) || r == c
    ensures IsUpper(c) ==> IsLowerLetter(r)
  {
    if IsUpper(c) then ((c as int) + 32) as char else c
  }

  // ---------------------------------------------------------------------
  // Case
  // ---------------------------------------------------------------------

  function ToLower(s: string): (r: string)
    ensures |r| == |s|
    ensures forall i :: 0 <= i < |s| ==> r[i] == LowerChar(s[i])
  {
    if s == [] then [] else ToLower(s[..|s| - 1]) + [LowerChar(s[|s| - 1])]
  }

  predicate EqualFold(a: string, b: string)
  {
    ToLower(a) == ToLower(b)
  }

  lemma ToLowerIdempotent(s: string)
    ensures ToLower(ToLower(s)) == ToLower(s)
  {
  }

  /** A string without upper-case letters is its own lower-case form. */
  lemma ToLowerOfLower(s: string)
    requires forall i :: 0 <= i < |s| ==> !IsUpper(s[i])
    ensures ToLower(s) == s
  {
  }

  // ---------------------------------------------------------------------
  // Prefix, suffix, substring
  // ---------------------------------------------------------------------

  predicate HasPrefix(s: string, p: string)
  {
    |p| <= |s| && s[..|p|] == p
  }

  predicate HasSuffix(s: string, p: string)
  {
    |p| <= |s| && s[|s| - |p|..] == p
  }

  /** strings.Contains: `sub` occurs somewhere in `s`. */
  function Contains(s: string, sub: string): (b: bool)
    decreases |s|
  {
    if HasPrefix(s, sub) then true
    else if s == [] then false
    else Contains(s[1..], sub)
  }

  predicate OccursAt(s: string, sub: string, i: int)
  {
    0 <= i <= |s| - |sub| && s[i..i + |sub|] == sub
  }

  lemma {:induction false} ContainsIff(s: string, sub: string)
    ensures Contains(s, sub) <==> exists i :: OccursAt(s, sub, i)
    decreases |s|
  {
    if HasPrefix(s, sub) {
      assert OccursAt(s, sub, 0);
    } else if s == [] {
    } else {
      ContainsIff(s[1..], sub);
      if Contains(s[1..], sub) {
        var i :| OccursAt(s[1..], sub, i);
        OccursLater(s, sub, i);
      } else {
        forall i | OccursAt(s, sub, i)
          ensures false
        {
          if i != 0 {
            OccursInTail(s, sub, i);
          }
        }
      }
    }
  }

  lemma OccursLater(s: string, sub: string, i: int)
    requires s != [] && OccursAt(s[1..], sub, i)
    ensures OccursAt(s, sub, i + 1)
  {
    assert s[1..][i..i + |sub|] == s[i + 1..i + 1 + |sub|];
  }

  lemma OccursInTail(s: string, sub: string, i: int)
    requires s != [] && i != 0 && OccursAt(s, sub, i)
    ensures OccursAt(s[1..], sub, i - 1)
  {
    assert s[1..][i - 1..i - 1 + |sub|] == s[i..i + |sub|];
  }

  /** Index of the first occurrence of `c`, or |s| when there is none. */
  function IndexOfChar(s: string, c: char): (i: nat)
    ensures i <= |s|
    ensures i < |s| <==> c in s
    ensures i < |s| ==> s[i] == c
    ensures forall j :: 0 <= j < i ==> s[j] != c
  {
    if s == [] then 0 else if s[0] == c then 0 else 1 + IndexOfChar(s[1..], c)
  }

  // ---------------------------------------------------------------------
  // Trimming
  // ---------------------------------------------------------------------

  function TrimLeftSpace(s: string): (r: string)
    ensures HasSuffix(s, r)
    ensures r == [] || !IsSpace(r[0])
    ensures forall i :: 0 <= i < |s| - |r| ==> IsSpace(s[i])
  {
    if s != [] && IsSpace(s[0]) then TrimLeftSpace(s[1..]) else s
  }

  function TrimRightSpace(s: string): (r: string)
    ensures HasPrefix(s, r)
    ensures r == [] || !IsSpace(r[|r| - 1])
    ensures forall i :: |r| <= i < |s| ==> IsSpace(s[i])
  {
    if s != [] && IsSpace(s[|s| - 1]) then TrimRightSpace(s[..|s| - 1]) else s
  }

  /** strings.TrimSpace. */
  function TrimSpace(s: string): (r: string)
    ensures r == [] || (!IsSpace(r[0]) && !IsSpace(r[|r| - 1]))
  {
    TrimRightSpace(TrimLeftSpace(s))
  }

  // ---------------------------------------------------------------------
  // Fields and Join
  // ---------------------------------------------------------------------

  predicate IsToken(t: string)
  {
    t != [] && forall i :: 0 <= i < |t| ==> !IsSpace(t[i])
  }

  /** Length of the leading run of non-space characters. */
  function TokenEnd(s: string): (k: nat)
    ensures k <= |s|
    ensures forall i :: 0 <= i < k ==> !IsSpace(s[i])
    ensures k < |s| ==> IsSpace(s[k])
  {
    if s == [] || IsSpace(s[0]) then 0 else 1 + TokenEnd(s[1..])
  }

  /** strings.Fields: the maximal runs of non-space characters, in order. */
  function Fields(s: string): (r: seq<string>)
    ensures forall i :: 0 <= i < |r| ==> IsToken(r[i])
    decreases |s|
  {
    var t := TrimLeftSpace(s);
    if t == [] then []
    else
      var k := TokenEnd(t);
      assert IsToken(t[..k]) by {
        assert k > 0;
        forall i | 0 <= i < k ensures !IsSpace(t[..k][i]) {
          assert t[..k][i] == t[i];
        }
      }
      assert |t[k..]| < |s|;
      var rest := Fields(t[k..]);
      assert forall i :: 0 < i <= |rest| ==> ([t[..k]] + rest)[i] == rest[i - 1];
      [t[..k]] + rest
  }

  /** strings.Join. */
  function Join(parts: seq<string>, sep: string): string
  {
    if parts == [] then []
    else if |parts| == 1 then parts[0]
    else parts[0] + sep + Join(parts[1..], sep)
  }

  lemma {:induction false} TokenEndOfToken(t: string, rest: string)
    requires IsToken(t)
    requires rest == [] || IsSpace(rest[0])
    ensures TokenEnd(t + rest) == |t|
    decreases |t|
  {
    var s := t + rest;
    assert s[0] == t[0] && !IsSpace(s[0]);
    assert TokenEnd(s) == 1 + TokenEnd(s[1..]);
    if |t| > 1 {
      assert s[1..] == t[1..] + rest;
      assert IsToken(t[1..]) by {
        forall i | 0 <= i < |t[1..]| ensures !IsSpace(t[1..][i]) {
          assert t[1..][i] == t[i + 1];
        }
      }
      TokenEndOfToken(t[1..], rest);
    } else {
      assert s[1..] == rest;
    }
  }

  /** Splitting a space-joined list of tokens gives the tokens back. */
  lemma {:induction false} FieldsOfJoin(ts: seq<string>)
    requires forall i :: 0 <= i < |ts| ==> IsToken(ts[i])
    ensures Fields(Join(ts, " ")) == ts
  {
    if ts == [] {
    } else if |ts| == 1 {
      FieldsOfToken(ts[0]);
    } else {
      FieldsOfJoin(ts[1..]);
      FieldsOfJoinCons(ts);
    }
  }

  lemma FieldsOfToken(t: string)
    requires IsToken(t)
    ensures Fields(Join([t], " ")) == [t]
  {
    assert Join([t], " ") == t + [];
    FieldsOfTokenThen(t, []);
  }

  lemma FieldsOfJoinCons(ts: seq<string>)
    requires |ts| > 1 && IsToken(ts[0])
    requires Fields(Join(ts[1..], " ")) == ts[1..]
    ensures Fields(Join(ts, " ")) == ts
  {
    var tail := Join(ts[1..], " ");
    var rest := " " + tail;
    assert Join(ts, " ") == ts[0] + rest;
    FieldsOfTokenThen(ts[0], rest);
    assert rest[1..] == tail;
    FieldsSkipSpace(rest);
    assert [ts[0]] + ts[1..] == ts;
  }

  /** A token followed by a space (or nothing) is the first field. */
  lemma FieldsOfTokenThen(t: string, rest: string)
    requires IsToken(t)
    requires rest == [] || IsSpace(rest[0])
    ensures Fields(t + rest) == [t] + Fields(rest)
  {
    var s := t + rest;
    assert s[0] == t[0];
    assert TrimLeftSpace(s) == s;
    TokenEndOfToken(t, rest);
    assert s[..|t|] == t;
    assert s[|t|..] == rest;
  }

  /** A leading space does not change the fields. */
  lemma FieldsSkipSpace(s: string)
    requires s != [] && IsSpace(s[0])
    ensures Fields(s) == Fields(s[1..])
  {
    assert TrimLeftSpace(s) == TrimLeftSpace(s[1..]);
  }

  lemma {:induction false} JoinOfPrefix(ts: seq<string>, n: nat)
    requires 0 < n <= |ts|
    ensures |Join(ts[..n], " ")| <= |Join(ts, " ")|
    ensures HasPrefix(Join(ts, " "), Join(ts[..n], " "))
  {
    if n == 1 {
      assert ts[..n] == [ts[0]];
      if |ts| > 1 {
        assert Join(ts, " ") == ts[0] + (" " + Join(ts[1..], " "));
      }
    } else {
      assert ts[..n][1..] == ts[1..][..n - 1];
      JoinOfPrefix(ts[1..], n - 1);
      assert Join(ts, " ") == ts[0] + " " + Join(ts[1..], " ");
      assert Join(ts[..n], " ") == ts[0] + " " + Join(ts[1..][..n - 1], " ");
    }
  }

  // ---------------------------------------------------------------------
  // Split on one separator character
  // ---------------------------------------------------------------------

  /** strings.Split(s, string(sep)): always at least one part, even for "". */
  function Split(s: string, sep: char): (r: seq<string>)
    ensures |r| >= 1
    ensures forall i :: 0 <= i < |r| ==> sep !in r[i]
    decreases |s|
  {
    var i := IndexOfChar(s, sep);
    if i == |s| then [s] else [s[..i]] + Split(s[i + 1..], sep)
  }

  /** Joining the parts with the separator gives the input back. */
  lemma {:induction false} JoinSplit(s: string, sep: char)
    ensures Join(Split(s, sep), [sep]) == s
    decreases |s|
  {
    var i := IndexOfChar(s, sep);
    if i < |s| {
      var rest := s[i + 1..];
      var tail := Split(rest, sep);
      JoinSplit(rest, sep);
      assert Split(s, sep) == [s[..i]] + tail;
      JoinCons(s[..i], tail, [sep]);
      assert s == s[..i] + [sep] + rest;
    }
  }

  lemma JoinCons(h: string, t: seq<string>, sep: string)
    requires t != []
    ensures Join([h] + t, sep) == h + sep + Join(t, sep)
  {
    assert ([h] + t)[1..] == t;
  }

  // ---------------------------------------------------------------------
  // Replacement
  // ---------------------------------------------------------------------

  /** strings.ReplaceAll: leftmost, non-overlapping occurrences of `pat`. */
  function ReplaceAll(s: string, pat: string, rep: string): string
    requires pat != []
    decreases |s|
  {
    if |s| < |pat| then s
    else if s[..|pat|] == pat then rep + ReplaceAll(s[|pat|..], pat, rep)
    else [s[0]] + ReplaceAll(s[1..], pat, rep)
  }

  /** strings.Replace(s, pat, rep, 1). */
  function ReplaceFirst(s: string, pat: string, rep: string): string
    requires pat != []
    decreases |s|
  {
    if |s| < |pat| then s
    else if s[..|pat|] == pat then rep + s[|pat|..]
    else [s[0]] + ReplaceFirst(s[1..], pat, rep)
  }

  /** Replacing never introduces a character outside a set both sides already keep to. */
  lemma {:induction false} ReplaceAllKeeps(s: string, pat: string, rep: string, p: char -> bool)
    requires pat != []
    requires forall i :: 0 <= i < |s| ==> p(s[i])
    requires forall i :: 0 <= i < |rep| ==> p(rep[i])
    ensures forall i :: 0 <= i < |ReplaceAll(s, pat, rep)| ==> p(ReplaceAll(s, pat, rep)[i])
    decreases |s|
  {
    if |s| < |pat| {
    } else if s[..|pat|] == pat {
      ReplaceAllKeeps(s[|pat|..], pat, rep, p);
    } else {
      ReplaceAllKeeps(s[1..], pat, rep, p);
    }
  }

  /** Replacing a single character by text without it leaves none of it. */
  lemma {:induction false} ReplaceAllRemoves(s: string, c: char, rep: string)
    requires forall i :: 0 <= i < |rep| ==> rep[i] != c
    ensures forall i :: 0 <= i < |ReplaceAll(s, [c], rep)| ==> ReplaceAll(s, [c], rep)[i] != c
    decreases |s|
  {
    if |s| >= 1 {
      if s[..1] == [c] {
        ReplaceAllRemoves(s[1..], c, rep);
      } else {
        assert s[0] != c by { assert s[..1][0] == s[0]; }
        ReplaceAllRemoves(s[1..], c, rep);
      }
    }
  }

  /** Without the character, replacing it changes nothing. */
  lemma ReplaceAllAbsent(s: string, c: char, rep: string)
    requires forall i :: 0 <= i < |s| ==> s[i] != c
    ensures ReplaceAll(s, [c], rep) == s
  {
    forall i | 0 <= i <= |s| - 1
      ensures !OccursAt(s, [c], i)
    {
      assert s[i..i + 1][0] == s[i];
    }
    ContainsIff(s, [c]);
    ReplaceAllNoOccurrence(s, [c], rep);
  }

  /** An occurrence at the start is replaced, and the scan goes on after it. */
  lemma ReplaceAllAtStart(pat: string, rest: string, rep: string)
    requires pat != []
    ensures ReplaceAll(pat + rest, pat, rep) == rep + ReplaceAll(rest, pat, rep)
  {
    assert (pat + rest)[..|pat|] == pat;
    assert (pat + rest)[|pat|..] == rest;
  }

  /** A first character that cannot start the pattern is kept. */
  lemma ReplaceAllSkip(c: char, rest: string, pat: string, rep: string)
    requires pat != [] && pat[0] != c
    ensures ReplaceAll([c] + rest, pat, rep) == [c] + ReplaceAll(rest, pat, rep)
  {
    var s := [c] + rest;
    if |s| >= |pat| {
      assert s[..|pat|][0] == c;
    }
    assert s[1..] == rest;
  }

  lemma {:induction false} ReplaceAllNoOccurrence(s: string, pat: string, rep: string)
    requires pat != []
    requires !Contains(s, pat)
    ensures ReplaceAll(s, pat, rep) == s
    decreases |s|
  {
    if |s| < |pat| {
    } else {
      assert !HasPrefix(s, pat);
      ReplaceAllNoOccurrence(s[1..], pat, rep);
    }
  }

  // ---------------------------------------------------------------------
  // Decimal integers (strconv.Itoa and fmt's %d)
  // ---------------------------------------------------------------------

  function NatToString(n: nat): (r: string)
    ensures r != []
    ensures forall i :: 0 <= i < |r| ==> IsDigit(r[i])
  {
    if n < 10 then [DigitChar(n)] else NatToString(n / 10) + [DigitChar(n % 10)]
  }

  function IntToString(n: int): (r: string)
    ensures r != []
    ensures forall i :: 0 <= i < |r| ==> IsDigit(r[i]) || (i == 0 && r[i] == '-')
  {
    if n < 0 then "-" + NatToString(-n) else NatToString(n)
  }

  /** Value of a string of decimal digits, most significant first. */
  function DigitsValue(s: string): nat
    requires forall i :: 0 <= i < |s| ==> IsDigit(s[i])
  {
    if s == [] then 0 else 10 * DigitsValue(s[..|s| - 1]) + DigitValue(s[|s| - 1])
  }

  lemma {:induction false} DigitsValueOfNat(n: nat)
    ensures DigitsValue(NatToString(n)) == n
  {
    if n >= 10 {
      var s := NatToString(n);
      assert s[..|s| - 1] == NatToString(n / 10);
      DigitsValueOfNat(n / 10);
    }
  }

  /** Reads back what IntToString wrote. */
  function ParseInt(s: string): int
    requires s != []
    requires forall i :: 0 <= i < |s| ==> IsDigit(s[i]) || (i == 0 && s[i] == '-')
  {
    if s[0] == '-' then 0 - DigitsValue(s[1..]) else DigitsValue(s)
  }

  lemma IntToStringRoundTrip(n: int)
    ensures ParseInt(IntToString(n)) == n
  {
    if n < 0 {
      DigitsValueOfNat(-n);
      assert IntToString(n)[1..] == NatToString(-n);
    } else {
      DigitsValueOfNat(n);
      assert NatToString(n)[0] != '-';
    }
  }

  lemma IntToStringInjective(a: int, b: int)
    requires IntToString(a) == IntToString(b)
    ensures a == b
  {
    IntToStringRoundTrip(a);
    IntToStringRoundTrip(b);
  }

  // ---------------------------------------------------------------------
  // ORDER BY <age> LIMIT <n> over a keyed table
  // ---------------------------------------------------------------------

  /** `k` is of least age in `s`. */
  predicate IsLeast<K>(s: set<K>, age: K -> int, k: K)
  {
    forall j :: j in s ==> age(k) <= age(j)
  }

  /** Every non-empty finite set has an element of least age. */
  lemma {:induction false} MinExists<K>(s: set<K>, age: K -> int)
    requires s != {}
    ensures exists k :: k in s && IsLeast(s, age, k)
    decreases |s|
  {
    var x :| x in s;
    var rest := s - {x};
    if rest == {} {
      assert forall j :: j in s ==> j == x by {
        forall j | j in s ensures j == x {
          assert j !in rest;
        }
      }
      assert IsLeast(s, age, x);
    } else {
      MinExists(rest, age);
      var k :| k in rest && IsLeast(rest, age, k);
      var m := if age(x) < age(k) then x else k;
      forall j | j in s
        ensures age(m) <= age(j)
      {
        if j != x {
          assert j in rest;
        }
      }
      assert m in s && IsLeast(s, age, m);
    }
  }

  /**
   * The keys of the `limit` rows of least age, oldest first: what a query
   * with ORDER BY and LIMIT returns. Rows of equal age come in any order.
   */
  method TakeOldest<K(==)>(keys: set<K>, age: K -> int, limit: nat) returns (ks: seq<K>)
    ensures |ks| == if limit < |keys| then limit else |keys|
    ensures forall i :: 0 <= i < |ks| ==> ks[i] in keys
    ensures forall i, j :: 0 <= i < j < |ks| ==> ks[i] != ks[j]
    ensures forall i, j :: 0 <= i < j < |ks| ==> age(ks[i]) <= age(ks[j])
    ensures forall k, i :: k in keys && k !in ks && 0 <= i < |ks| ==> age(ks[i]) <= age(k)
    ensures |ks| < limit || |keys| <= limit ==> forall k :: k in keys ==> k in ks
  {
    ks := [];
    var rest := keys;
    while |ks| < limit && rest != {}
      invariant |ks| <= limit
      invariant rest <= keys
      invariant |ks| + |rest| == |keys|
      invariant forall i :: 0 <= i < |ks| ==> ks[i] in keys && ks[i] !in rest
      invariant forall k :: k in keys && k !in rest ==> k in ks
      invariant forall i, j :: 0 <= i < j < |ks| ==> ks[i] != ks[j]
      invariant forall i, j :: 0 <= i < j < |ks| ==> age(ks[i]) <= age(ks[j])
      invariant forall k, i :: k in rest && 0 <= i < |ks| ==> age(ks[i]) <= age(k)
      decreases |rest|
    {
      MinExists(rest, age);
      var k :| k in rest && IsLeast(rest, age, k);
      ks := ks + [k];
      rest := rest - {k};
    }
  }
}
