/**
 * Property identity (identity/fingerprint.go): address normalisation and the
 * fingerprint that keys the properties table.
 *
 * SHA-256 is not modelled; the fingerprint takes the hash function as a
 * parameter and only relies on it returning 32 bytes.
 */
module Identity {
  import opened Util
  import opened Models

  type Digest = s: seq<byte> | |s| == 32 witness seq(32, _ => 0 as byte)

  /**
   * The street-type and directional dictionary, in declaration order. The Go
   * code ranges over a map, so its order is unspecified; the model fixes it.
   */
  const StreetReplacements: seq<(string, string)> := [
    ("street", "st"), ("avenue", "ave"), ("drive", "dr"), ("road", "rd"),
    ("boulevard", "blvd"), ("lane", "ln"), ("court", "ct"), ("place", "pl"),
    ("circle", "cir"), ("crescent", "cres"), ("terrace", "ter"), ("highway", "hwy"),
    ("parkway", "pkwy"), ("square", "sq"), ("north", "n"), ("south", "s"),
    ("east", "e"), ("west", "w"), ("northeast", "ne"), ("northwest", "nw"),
    ("southeast", "se"), ("southwest", "sw"), ("apartment", "apt"), ("suite", "ste"),
    ("unit", "unit"), ("floor", "fl"), ("building", "bldg")
  ]

  predicate ValidTable(table: seq<(string, string)>)
  {
    forall i :: 0 <= i < |table| ==> table[i].0 != [] && AllLowerLetters(table[i].1)
  }

  predicate AllLowerLetters(s: string)
  {
    forall i :: 0 <= i < |s| ==> IsLowerLetter(s[i])
  }

  /** Characters the pattern [^a-z0-9\s] leaves alone. */
  predicate KeptChar(c: char)
  {
    IsLowerLetter(c) || IsDigit(c) || IsRegexSpace(c)
  }

  /** Characters of a normalised address. */
  predicate NormalChar(c: char)
  {
    IsLowerLetter(c) || IsDigit(c) || c == ' '
  }

  /** Only a-z, 0-9 and single spaces, and no space at either end. */
  predicate IsNormalized(s: string)
  {
    (forall i :: 0 <= i < |s| ==> NormalChar(s[i]))
    && (forall i :: 0 <= i < |s| - 1 ==> !(s[i] == ' ' && s[i + 1] == ' '))
    && (s == [] || (s[0] != ' ' && s[|s| - 1] != ' '))
  }

  /** nonAlnumRegex.ReplaceAllString(s, " "): every other character becomes a space. */
  function BlankNonAlnum(s: string): (r: string)
    ensures |r| == |s|
    ensures forall i :: 0 <= i < |r| ==> KeptChar(r[i])
    ensures forall i :: 0 <= i < |s| ==> (KeptChar(s[i]) ==> r[i] == s[i]) && (!KeptChar(s[i]) ==> r[i] == ' ')
  {
    if s == [] then [] else BlankNonAlnum(s[..|s| - 1]) + [if KeptChar(s[|s| - 1]) then s[|s| - 1] else ' ']
  }

  /** The replacement loop: strings.ReplaceAll for each entry, in table order. */
  function ApplyReplacements(s: string, table: seq<(string, string)>): string
    requires ValidTable(table)
    decreases |table|
  {
    if table == [] then s
    else ApplyReplacements(ReplaceAll(s, table[0].0, table[0].1), table[1..])
  }

  /** Length of the leading run of \s characters. */
  function RegexSpaceRun(s: string): (k: nat)
    ensures k <= |s|
    ensures forall i :: 0 <= i < k ==> IsRegexSpace(s[i])
    ensures k < |s| ==> !IsRegexSpace(s[k])
  {
    if s != [] && IsRegexSpace(s[0]) then 1 + RegexSpaceRun(s[1..]) else 0
  }

  /** multiSpaceRegex.ReplaceAllString(s, " "): each run of \s becomes one space. */
  function CollapseSpaces(s: string): string
    decreases |s|
  {
    if s == [] then []
    else if IsRegexSpace(s[0]) then
      var k := RegexSpaceRun(s);
      " " + CollapseSpaces(s[k..])
    else [s[0]] + CollapseSpaces(s[1..])
  }

  function NormalizeAddress(addr: string): string
  {
    var lowered := ToLower(TrimSpace(addr));
    var blanked := BlankNonAlnum(lowered);
    StreetReplacementsValid();
    var replaced := ApplyReplacements(blanked, StreetReplacements);
    TrimSpace(CollapseSpaces(replaced))
  }

  // ---------------------------------------------------------------------
  // NormalizeAddress yields only a-z, 0-9 and single inner spaces
  // ---------------------------------------------------------------------

  lemma {:induction false} ApplyReplacementsKeeps(s: string, table: seq<(string, string)>)
    requires ValidTable(table)
    requires forall i :: 0 <= i < |s| ==> KeptChar(s[i])
    ensures forall i :: 0 <= i < |ApplyReplacements(s, table)| ==> KeptChar(ApplyReplacements(s, table)[i])
    decreases |table|
  {
    if table != [] {
      ReplaceAllKeeps(s, table[0].0, table[0].1, KeptChar);
      ApplyReplacementsKeeps(ReplaceAll(s, table[0].0, table[0].1), table[1..]);
    }
  }

  /** Collapsing yields normal characters with no two spaces in a row. */
  lemma {:induction false} CollapseSpacesShape(s: string)
    requires forall i :: 0 <= i < |s| ==> KeptChar(s[i])
    ensures var r := CollapseSpaces(s);
      (forall i :: 0 <= i < |r| ==> NormalChar(r[i]))
      && (forall i :: 0 <= i < |r| - 1 ==> !(r[i] == ' ' && r[i + 1] == ' '))
      && (r != [] ==> (r[0] == ' ' <==> IsRegexSpace(s[0])))
    decreases |s|
  {
    if s == [] {
    } else if IsRegexSpace(s[0]) {
      var k := RegexSpaceRun(s);
      var t := s[k..];
      CollapseSpacesShape(t);
      var rt := CollapseSpaces(t);
      assert rt != [] ==> rt[0] != ' ' by {
        if rt != [] {
          assert t != [];
          assert !IsRegexSpace(t[0]);
        }
      }
      assert CollapseSpaces(s) == " " + rt;
    } else {
      CollapseSpacesShape(s[1..]);
      assert CollapseSpaces(s) == [s[0]] + CollapseSpaces(s[1..]);
    }
  }

  predicate Tidy(s: string)
  {
    (forall i :: 0 <= i < |s| ==> NormalChar(s[i]))
    && (forall i :: 0 <= i < |s| - 1 ==> !(s[i] == ' ' && s[i + 1] == ' '))
  }

  lemma TidySlice(s: string, a: nat, b: nat)
    requires Tidy(s)
    requires a <= b <= |s|
    ensures Tidy(s[a..b])
  {
    var t := s[a..b];
    forall i | 0 <= i < |t| - 1
      ensures !(t[i] == ' ' && t[i + 1] == ' ')
    {
      assert t[i] == s[a + i] && t[i + 1] == s[a + i + 1];
    }
  }

  lemma TrimTidy(s: string)
    requires Tidy(s)
    ensures IsNormalized(TrimSpace(s))
  {
    var l := TrimLeftSpace(s);
    assert l == s[|s| - |l|..];
    TidySlice(s, |s| - |l|, |s|);
    var r := TrimRightSpace(l);
    assert r == l[..|r|];
    TidySlice(l, 0, |r|);
  }

  lemma NormalizeAddressIsNormalized(addr: string)
    ensures IsNormalized(NormalizeAddress(addr))
  {
    var blanked := BlankNonAlnum(ToLower(TrimSpace(addr)));
    StreetReplacementsValid();
    ApplyReplacementsKeeps(blanked, StreetReplacements);
    var replaced := ApplyReplacements(blanked, StreetReplacements);
    CollapseSpacesShape(replaced);
    TrimTidy(CollapseSpaces(replaced));
  }

  lemma StreetReplacementsValid()
    ensures ValidTable(StreetReplacements)
  {
    forall i | 0 <= i < |StreetReplacements|
      ensures StreetReplacements[i].0 != [] && AllLowerLetters(StreetReplacements[i].1)
    {
    }
  }

  /**
   * The dictionary has overlapping keys ("street" ends in the "t" that
   * completes "eas" to "east"), so the result depends on the order the
   * entries are applied in.
   */
  lemma ReplacementOrderMatters()
    ensures ApplyReplacements("eastreet", [("street", "st"), ("east", "e")]) == "e"
    ensures ApplyReplacements("eastreet", [("east", "e"), ("street", "st")]) == "ereet"
  {
    StreetThenEast();
    EastThenStreet();
  }

  lemma StreetThenEast()
    ensures ApplyReplacements("eastreet", [("street", "st"), ("east", "e")]) == "e"
  {
    var t: seq<(string, string)> := [("street", "st"), ("east", "e")];
    assert "eastreet" == ['e'] + (['a'] + ("street" + []));
    ReplaceAllAtStart("street", [], "st");
    ReplaceAllSkip('a', "street" + [], "street", "st");
    ReplaceAllSkip('e', ['a'] + ("street" + []), "street", "st");
    assert ReplaceAll([], "street", "st") == [];
    assert ReplaceAll("eastreet", "street", "st") == ['e'] + (['a'] + ("st" + []));
    assert ['e'] + (['a'] + ("st" + [])) == "east";
    assert ApplyReplacements("eastreet", t) == ApplyReplacements("east", t[1..]);
    assert "east" == "east" + [];
    ReplaceAllAtStart("east", [], "e");
    assert t[1..][1..] == [];
  }

  lemma EastThenStreet()
    ensures ApplyReplacements("eastreet", [("east", "e"), ("street", "st")]) == "ereet"
  {
    var t: seq<(string, string)> := [("east", "e"), ("street", "st")];
    assert "eastreet" == "east" + "reet";
    ReplaceAllAtStart("east", "reet", "e");
    NoOccurrence("reet", "east", 's');
    ReplaceAllNoOccurrence("reet", "east", "e");
    assert ApplyReplacements("eastreet", t) == ApplyReplacements("ereet", t[1..]);
    NoOccurrence("ereet", "street", 's');
    ReplaceAllNoOccurrence("ereet", "street", "st");
    assert t[1..][1..] == [];
  }

  /** A pattern with a character the string lacks does not occur in it. */
  lemma NoOccurrence(s: string, pat: string, c: char)
    requires pat != [] && c in pat && c !in s
    ensures !Contains(s, pat)
    decreases |s|
  {
    if s != [] {
      NoOccurrence(s[1..], pat, c);
    }
  }

  // ---------------------------------------------------------------------
  // Fingerprint
  // ---------------------------------------------------------------------

  /** fmt.Sprintf("%s|%d|%d|%d|%s", ...). */
  function PreHash(addr: string, beds: int, baths: int, sqft: int, ptype: string): string
  {
    Bar(addr, Bar(IntToString(beds), Bar(IntToString(baths), Bar(IntToString(sqft), ptype))))
  }

  /** Two fields joined by the "|" of the format string. */
  function Bar(x: string, y: string): string
  {
    x + "|" + y
  }

  function FingerprintInput(l: RawListing): string
  {
    PreHash(NormalizeAddress(l.address), l.beds, l.baths, l.sqft, ToLower(l.propertyType))
  }

  predicate IsLowerHex(c: char)
  {
    IsDigit(c) || ('a' <= c <= 'f')
  }

  function HexDigit(n: nat): (c: char)
    requires n < 16
    ensures IsLowerHex(c)
  {
    if n < 10 then DigitChar(n) else (('a' as int) + n - 10) as char
  }

  /** hex.EncodeToString: two lowercase hex digits per byte, high nibble first. */
  function HexEncode(bs: seq<byte>): (r: string)
    ensures |r| == 2 * |bs|
    ensures forall i :: 0 <= i < |r| ==> IsLowerHex(r[i])
  {
    if bs == [] then []
    else [HexDigit(bs[0] as int / 16), HexDigit(bs[0] as int % 16)] + HexEncode(bs[1..])
  }

  function HexValue(c: char): (n: nat)
    requires IsLowerHex(c)
    ensures n < 16
  {
    if IsDigit(c) then DigitValue(c) else (c as int) - ('a' as int) + 10
  }

  function HexDecode(s: string): seq<byte>
    requires |s| % 2 == 0
    requires forall i :: 0 <= i < |s| ==> IsLowerHex(s[i])
  {
    if s == [] then [] else [(16 * HexValue(s[0]) + HexValue(s[1])) as byte] + HexDecode(s[2..])
  }

  /** Hex encoding loses nothing: decoding gives the bytes back. */
  lemma {:induction false} HexRoundTrip(bs: seq<byte>)
    ensures HexDecode(HexEncode(bs)) == bs
  {
    if bs != [] {
      var s := HexEncode(bs);
      assert s[2..] == HexEncode(bs[1..]);
      HexRoundTrip(bs[1..]);
      var b := bs[0] as int;
      assert HexValue(HexDigit(b / 16)) == b / 16;
      assert HexValue(HexDigit(b % 16)) == b % 16;
    }
  }

  /** The fingerprint: hex of the first 16 bytes of SHA-256 of the pre-hash string. */
  function Fingerprint(l: RawListing, sha256: string -> Digest): (f: string)
    ensures |f| == 32
    ensures forall i :: 0 <= i < |f| ==> IsLowerHex(f[i])
  {
    HexEncode(sha256(FingerprintInput(l))[..16])
  }

  /**
   * Only the normalised address, beds, baths, square footage and the
   * lower-cased property type reach the hash; city, postal code, price, MLS
   * number, BedsPlus and the rest do not.
   */
  lemma FingerprintDependsOnlyOnIdentity(l1: RawListing, l2: RawListing, sha256: string -> Digest)
    requires NormalizeAddress(l1.address) == NormalizeAddress(l2.address)
    requires l1.beds == l2.beds && l1.baths == l2.baths && l1.sqft == l2.sqft
    requires ToLower(l1.propertyType) == ToLower(l2.propertyType)
    ensures Fingerprint(l1, sha256) == Fingerprint(l2, sha256)
  {
  }

  /** A field without '|' can be read back off the front of a joined pair. */
  lemma BarInjective(x1: string, y1: string, x2: string, y2: string)
    requires '|' !in x1 && '|' !in x2
    requires Bar(x1, y1) == Bar(x2, y2)
    ensures x1 == x2 && y1 == y2
  {
    var s := Bar(x1, y1);
    assert |x1| == |x2| by {
      assert s[|x1|] == '|' && s[|x2|] == '|';
    }
    assert x1 == s[..|x1|] == x2;
    assert y1 == s[|x1| + 1..] == y2;
  }

  lemma IntToStringNoBar(n: int)
    ensures '|' !in IntToString(n)
  {
    var s := IntToString(n);
    forall i | 0 <= i < |s| ensures s[i] != '|' {
    }
  }

  /** A normalised address holds no '|', so the five fields can be read back. */
  lemma PreHashInjective(a1: string, b1: int, c1: int, d1: int, t1: string,
                         a2: string, b2: int, c2: int, d2: int, t2: string)
    requires '|' !in a1 && '|' !in a2
    requires PreHash(a1, b1, c1, d1, t1) == PreHash(a2, b2, c2, d2, t2)
    ensures a1 == a2 && b1 == b2 && c1 == c2 && d1 == d2 && t1 == t2
  {
    var sb1, sc1, sd1 := IntToString(b1), IntToString(c1), IntToString(d1);
    var sb2, sc2, sd2 := IntToString(b2), IntToString(c2), IntToString(d2);
    IntToStringNoBar(b1);
    IntToStringNoBar(c1);
    IntToStringNoBar(d1);
    IntToStringNoBar(b2);
    IntToStringNoBar(c2);
    IntToStringNoBar(d2);
    BarInjective(a1, Bar(sb1, Bar(sc1, Bar(sd1, t1))), a2, Bar(sb2, Bar(sc2, Bar(sd2, t2))));
    BarInjective(sb1, Bar(sc1, Bar(sd1, t1)), sb2, Bar(sc2, Bar(sd2, t2)));
    BarInjective(sc1, Bar(sd1, t1), sc2, Bar(sd2, t2));
    BarInjective(sd1, t1, sd2, t2);
    IntToStringInjective(b1, b2);
    IntToStringInjective(c1, c2);
    IntToStringInjective(d1, d2);
  }

  /** Equal fingerprint inputs come only from equal identity components. */
  lemma FingerprintInputInjective(l1: RawListing, l2: RawListing)
    requires FingerprintInput(l1) == FingerprintInput(l2)
    ensures NormalizeAddress(l1.address) == NormalizeAddress(l2.address)
    ensures l1.beds == l2.beds && l1.baths == l2.baths && l1.sqft == l2.sqft
    ensures ToLower(l1.propertyType) == ToLower(l2.propertyType)
  {
    NormalizeAddressIsNormalized(l1.address);
    NormalizeAddressIsNormalized(l2.address);
    NoBarInNormalized(NormalizeAddress(l1.address));
    NoBarInNormalized(NormalizeAddress(l2.address));
    PreHashInjective(NormalizeAddress(l1.address), l1.beds, l1.baths, l1.sqft, ToLower(l1.propertyType),
                     NormalizeAddress(l2.address), l2.beds, l2.baths, l2.sqft, ToLower(l2.propertyType));
  }

  lemma NoBarInNormalized(s: string)
    requires IsNormalized(s)
    ensures '|' !in s
  {
    forall i | 0 <= i < |s| ensures s[i] != '|' {
      assert NormalChar(s[i]);
    }
  }
}
