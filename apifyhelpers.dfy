/**
 * The postal-code helpers shared by the Apify adapters
 * (scraper/apify_helpers.go): removing spaces, recognising the Canadian
 * A1A1A1 shape, and finding a postal code at the end of an address.
 */
module ApifyHelpers {
  import opened Util
  import ApiHandler

  // ---------------------------------------------------------------------
  // normalizePostal
  // ---------------------------------------------------------------------

  /** s with every space deleted, the other characters kept in order. */
  function StripSpaces(s: string): (r: string)
    ensures |r| <= |s|
  {
    if s == [] then []
    else StripSpaces(s[..|s| - 1]) + (if s[|s| - 1] == ' ' then [] else [s[|s| - 1]])
  }

  /** No space is left. */
  lemma {:induction false} StripSpacesNoSpace(s: string)
    ensures ' ' !in StripSpaces(s)
  {
    if s != [] {
      StripSpacesNoSpace(s[..|s| - 1]);
    }
  }

  /** Text without spaces is left as it is. */
  lemma {:induction false} StripSpacesNone(s: string)
    requires ' ' !in s
    ensures StripSpaces(s) == s
  {
    if s != [] {
      assert s[..|s| - 1] + [s[|s| - 1]] == s;
      StripSpacesNone(s[..|s| - 1]);
    }
  }

  /** Deleting the spaces twice is deleting them once. */
  lemma StripSpacesIdempotent(s: string)
    ensures StripSpaces(StripSpaces(s)) == StripSpaces(s)
  {
    StripSpacesNoSpace(s);
    StripSpacesNone(StripSpaces(s));
  }

  /** The loop of normalizePostal (and the first loop of isCanadianPostal). */
  method NormalizePostal(s: string) returns (clean: string)
    ensures clean == StripSpaces(s)
  {
    clean := "";
    var i := 0;
    while i < |s|
      invariant 0 <= i <= |s|
      invariant clean == StripSpaces(s[..i])
    {
      assert s[..i + 1][..i] == s[..i];
      if s[i] != ' ' {
        clean := clean + [s[i]];
      }
      i := i + 1;
    }
    assert s[..i] == s;
  }

  // ---------------------------------------------------------------------
  // isCanadianPostal
  // ---------------------------------------------------------------------

  /** Letter, digit, letter, digit, letter, digit: upper-case ASCII letters only. */
  predicate PostalShape(t: string)
  {
    |t| == 6 && forall i :: 0 <= i < 6 ==> if i % 2 == 0 then IsUpper(t[i]) else IsDigit(t[i])
  }

  /** isCanadianPostal: the text without its spaces has the A1A1A1 shape ("N9A 1B2" qualifies). */
  predicate IsCanadianPostal(s: string)
  {
    PostalShape(StripSpaces(s))
  }

  /** The two loops of isCanadianPostal: delete the spaces, then check each position. */
  method CheckCanadianPostal(s: string) returns (b: bool)
    ensures b <==> IsCanadianPostal(s)
  {
    var clean := NormalizePostal(s);
    if |clean| != 6 {
      return false;
    }
    var i := 0;
    while i < |clean|
      invariant 0 <= i <= 6
      invariant forall j :: 0 <= j < i ==> if j % 2 == 0 then IsUpper(clean[j]) else IsDigit(clean[j])
    {
      var c := clean[i];
      if i % 2 == 0 {
        if c < 'A' || c > 'Z' {
          return false;
        }
      } else {
        if c < '0' || c > '9' {
          return false;
        }
      }
      i := i + 1;
    }
    return true;
  }

  // ---------------------------------------------------------------------
  // extractPostalFromAddress
  // ---------------------------------------------------------------------

  /** The outcome when a candidate suffix qualifies: the candidate without its spaces. */
  function Accept(candidate: string): string
  {
    StripSpaces(candidate)
  }

  /**
   * extractPostalFromAddress as written, on the last part of the address: for
   * a part of exactly six bytes the seven-byte suffix has a negative start
   * and the slice expression panics; that panic is the error here.
   */
  function LastPartPostalAsWritten(last: string): (r: Result<string>)
  {
    if |last| < 6 then Ok("")
    else if |last| < 7 then Err("slice bounds out of range")
    else if IsCanadianPostal(last[|last| - 7..]) then Ok(Accept(last[|last| - 7..]))
    else if IsCanadianPostal(last[|last| - 6..]) then Ok(Accept(last[|last| - 6..]))
    else Ok("")
  }

  /** extractPostalFromAddress as written: short addresses and addresses without parts give "". */
  function ExtractPostalAsWritten(address: string): (r: Result<string>)
  {
    if |address| < 6 then Ok("")
    else
      var parts := ApiHandler.SplitAddress(address);
      if |parts| == 0 then Ok("") else LastPartPostalAsWritten(parts[|parts| - 1])
  }

  /** An address whose last part is a bare six-character postal code makes the code panic. */
  lemma ExtractPostalAsWrittenPanics()
    ensures ExtractPostalAsWritten("N9A1B2").Err?
  {
    BarePostalParts();
  }

  /** "N9A1B2" has no separator, so it is its own single part. */
  lemma BarePostalParts()
    ensures ApiHandler.SplitAddress("N9A1B2") == ["N9A1B2"]
  {
    var s := "N9A1B2";
    ApiHandler.SplitAddressSegments(s);
    assert ApiHandler.IndexOfSep(s) == |s|;
    assert ApiHandler.Segments(s) == [s];
    assert ApiHandler.TrimBlank(s) == s by {
      ApiHandler.TrimLeftBlankNone(s);
      ApiHandler.TrimRightBlankNone(s);
    }
    ApiHandler.KeptCons(s, [], true);
    assert [s] + [] == [s];
  }

  /**
   * extractPostalFromAddress as evidently intended, on the last part: the
   * seven-byte suffix (a code written "A1A 1A1") is tried only when the part
   * is that long, then the six-byte one; the first that qualifies is returned
   * without spaces.
   */
  function LastPartPostal(last: string): (r: string)
  {
    if |last| < 6 then ""
    else if |last| >= 7 && IsCanadianPostal(last[|last| - 7..]) then Accept(last[|last| - 7..])
    else if IsCanadianPostal(last[|last| - 6..]) then Accept(last[|last| - 6..])
    else ""
  }

  function ExtractPostal(address: string): (r: string)
  {
    if |address| < 6 then ""
    else
      var parts := ApiHandler.SplitAddress(address);
      if |parts| == 0 then "" else LastPartPostal(parts[|parts| - 1])
  }

  /** Wherever the code as written does not panic, the corrected function gives the same answer. */
  lemma ExtractPostalAgrees(address: string)
    requires ExtractPostalAsWritten(address).Ok?
    ensures ExtractPostalAsWritten(address).value == ExtractPostal(address)
  {
  }

  /** The corrected function reads the bare code that made the original panic. */
  lemma ExtractPostalBare()
    ensures ExtractPostal("N9A1B2") == "N9A1B2"
  {
    BarePostalParts();
    BareLastPart();
  }

  lemma BareLastPart()
    ensures LastPartPostal("N9A1B2") == "N9A1B2"
  {
    var s := "N9A1B2";
    assert s[|s| - 6..] == s;
    StripSpacesNone(s);
    assert PostalShape(s);
  }

  /** A qualifying candidate, once its spaces are gone, is a six-character code with no space. */
  lemma AcceptShape(candidate: string)
    requires IsCanadianPostal(candidate)
    ensures var r := Accept(candidate); |r| == 6 && ' ' !in r && PostalShape(r) && IsCanadianPostal(r)
  {
    var r := Accept(candidate);
    StripSpacesNone(r);
  }

  /** Any postal code found has six characters, no space, and the A1A1A1 shape. */
  lemma ExtractPostalShape(address: string)
    ensures var r := ExtractPostal(address);
      r != "" ==> |r| == 6 && ' ' !in r && PostalShape(r) && IsCanadianPostal(r)
  {
    if |address| >= 6 {
      var parts := ApiHandler.SplitAddress(address);
      if |parts| > 0 {
        LastPartPostalShape(parts[|parts| - 1]);
      }
    }
  }

  lemma LastPartPostalShape(last: string)
    ensures var r := LastPartPostal(last);
      r != "" ==> |r| == 6 && ' ' !in r && PostalShape(r) && IsCanadianPostal(r)
  {
    if |last| >= 7 && IsCanadianPostal(last[|last| - 7..]) {
      AcceptShape(last[|last| - 7..]);
    } else if |last| >= 6 && IsCanadianPostal(last[|last| - 6..]) {
      AcceptShape(last[|last| - 6..]);
    }
  }
}
