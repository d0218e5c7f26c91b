/**
 * The Apify "canadesk" adapter (scraper/apify_canadesk.go): the input it
 * builds for a region, the number and name parsers it applies to a decoded
 * record, and the city filter applied to its results. The JSON decoding
 * itself is an input: a record arrives already decoded, or as an error.
 */
module Canadesk {
  import opened Util
  import opened Models
  import ApiHandler
  import RealtorInfo

  // ---------------------------------------------------------------------
  // BuildInput: the look-back window
  // ---------------------------------------------------------------------

  /** The "days" input: DaysBack when set, otherwise 1 day on incremental runs and 30 on full ones. */
  function Days(daysBack: int, incremental: bool): (d: int)
    ensures daysBack != 0 ==> d == daysBack
    ensures daysBack == 0 && incremental ==> d == 1
    ensures daysBack == 0 && !incremental ==> d == 30
  {
    if daysBack != 0 then daysBack else if incremental then 1 else 30
  }

  // ---------------------------------------------------------------------
  // extractCityName
  // ---------------------------------------------------------------------

  /** "Windsor, ON" gives "Windsor": the text before the first comma, or all of it. */
  function ExtractCityName(geoName: string): (r: string)
    ensures HasPrefix(geoName, r)
    ensures ',' !in r
    ensures ',' !in geoName ==> r == geoName
    ensures |r| < |geoName| ==> geoName[|r|] == ','
  {
    geoName[..IndexOfChar(geoName, ',')]
  }

  // ---------------------------------------------------------------------
  // parseIntString
  // ---------------------------------------------------------------------

  /**
   * The state of the parseIntString loop after a prefix: the value so far and
   * whether the loop has stopped. Digits accumulate; a non-digit stops the
   * loop only once the value is positive, so leading zeros and the text
   * around them are read through.
   */
  function IntScan(s: string): (r: (nat, bool))
    ensures r.1 ==> r.0 > 0
  {
    if s == [] then (0, false)
    else
      var prev := IntScan(s[..|s| - 1]);
      var c := s[|s| - 1];
      if prev.1 then prev
      else if IsDigit(c) then (10 * prev.0 + DigitValue(c), false)
      else if prev.0 > 0 then (prev.0, true)
      else prev
  }

  /** parseIntString's result. */
  function IntString(s: string): nat
  {
    IntScan(s).0
  }

  /** The loop of parseIntString, with its break. */
  method ParseIntString(s: string) returns (r: nat)
    ensures r == IntString(s)
  {
    r := 0;
    var i := 0;
    while i < |s|
      invariant 0 <= i <= |s|
      invariant IntScan(s[..i]) == (r, false)
    {
      assert s[..i + 1][..i] == s[..i];
      var c := s[i];
      if '0' <= c <= '9' {
        r := r * 10 + ((c as int) - ('0' as int));
      } else if r > 0 {
        IntScanStopped(s[..i + 1], s[i + 1..]);
        assert s[..i + 1] + s[i + 1..] == s;
        return;
      }
      i := i + 1;
    }
    assert s[..i] == s;
  }

  /** Once stopped, the loop reads nothing more. */
  lemma {:induction false} IntScanStopped(p: string, q: string)
    requires IntScan(p).1
    ensures IntScan(p + q) == IntScan(p)
    decreases |q|
  {
    if q == [] {
      assert p + q == p;
    } else {
      var q' := q[..|q| - 1];
      IntScanStopped(p, q');
      assert (p + q)[..|p + q| - 1] == p + q';
    }
  }

  /** A string of digits reads as its decimal value, and the loop never stops inside it. */
  lemma {:induction false} IntScanOfDigits(d: string)
    requires forall i :: 0 <= i < |d| ==> IsDigit(d[i])
    ensures IntScan(d) == (DigitsValue(d), false)
  {
    if d != [] {
      IntScanOfDigits(d[..|d| - 1]);
    }
  }

  /** A plain numeral reads back as its value. */
  lemma IntStringOfNat(n: nat)
    ensures IntString(NatToString(n)) == n
  {
    IntScanOfDigits(NatToString(n));
    DigitsValueOfNat(n);
  }

  /** After a positive run of digits, the first non-digit ends the number: "12 sqft 34" reads 12. */
  lemma IntStringStops(d: string, c: char, rest: string)
    requires forall i :: 0 <= i < |d| ==> IsDigit(d[i])
    requires DigitsValue(d) > 0 && !IsDigit(c)
    ensures IntString(d + [c] + rest) == DigitsValue(d)
  {
    IntScanOfDigits(d);
    assert (d + [c])[..|d|] == d;
    assert IntScan(d + [c]) == (DigitsValue(d), true);
    IntScanStopped(d + [c], rest);
  }

  /** The leading-zero quirk: "0.5" reads as 5, not 0. */
  lemma IntStringLeadingZero()
    ensures IntString("0.5") == 5
  {
    assert "0.5"[..2] == "0.";
    assert "0."[..1] == "0";
    assert "0"[..0] == [];
  }

  // ---------------------------------------------------------------------
  // parseBedrooms
  // ---------------------------------------------------------------------

  /** "3 + 1" gives (3, 1); no '+' (or more than one) reads the whole string with no extra bedrooms. */
  function ParseBedrooms(s: string): (r: (nat, nat))
    ensures '+' !in s ==> r == (IntString(s), 0)
  {
    var parts := Split(s, '+');
    if |parts| == 2 then (IntString(TrimSpace(parts[0])), IntString(TrimSpace(parts[1])))
    else
      assert '+' !in s ==> |parts| == 1 by {
        if '+' !in s {
          assert IndexOfChar(s, '+') == |s|;
        }
      }
      (IntString(s), 0)
  }

  /** The documented example: a basement bedroom after the '+'. */
  lemma ParseBedroomsExample()
    ensures ParseBedrooms("3 + 1") == (3, 1)
  {
    var parts := Split("3 + 1", '+');
    SplitBedroomsExample();
    assert |parts| == 2;
    TrimBedroomsExample();
    DigitString3();
    DigitString1();
    assert IntString(TrimSpace(parts[0])) == 3;
    assert IntString(TrimSpace(parts[1])) == 1;
  }

  lemma DigitString3()
    ensures IntString("3") == 3
  {
    assert "3"[..0] == [];
  }

  lemma DigitString1()
    ensures IntString("1") == 1
  {
    assert "1"[..0] == [];
  }

  lemma SplitBedroomsExample()
    ensures Split("3 + 1", '+') == ["3 ", " 1"]
  {
    var s := "3 + 1";
    assert IndexOfChar(s, '+') == 2;
    assert s[..2] == "3 " && s[3..] == " 1";
    assert IndexOfChar(" 1", '+') == 2;
  }

  lemma TrimBedroomsExample()
    ensures TrimSpace("3 ") == "3" && TrimSpace(" 1") == "1"
  {
    assert TrimLeftSpace("3 ") == "3 ";
    assert "3 "[..1] == "3";
    assert " 1"[1..] == "1";
    assert TrimLeftSpace(" 1") == "1";
  }

  // ---------------------------------------------------------------------
  // normalizeProvince
  // ---------------------------------------------------------------------

  /** The switch of normalizeProvince over the lowercased name: the code of a full province name. */
  function ProvinceCode(l: string): (r: Option<string>)
    ensures r.Some? ==> |r.value| == 2 && |l| > 2
  {
    if l == "ontario" then Some("ON")
    else if l == "quebec" || l == "québec" then Some("QC")
    else if l == "british columbia" then Some("BC")
    else if l == "alberta" then Some("AB")
    else if l == "manitoba" then Some("MB")
    else if l == "saskatchewan" then Some("SK")
    else if l == "nova scotia" then Some("NS")
    else if l == "new brunswick" then Some("NB")
    else if l == "newfoundland and labrador" || l == "newfoundland" then Some("NL")
    else if l == "prince edward island" then Some("PE")
    else if l == "northwest territories" then Some("NT")
    else if l == "yukon" then Some("YT")
    else if l == "nunavut" then Some("NU")
    else None
  }

  /** A full province name, in any ASCII case, becomes its code; anything else comes back unchanged. */
  function NormalizeProvince(name: string): (r: string)
    ensures ProvinceCode(ToLower(name)).None? ==> r == name
    ensures ProvinceCode(ToLower(name)).Some? ==> r == ProvinceCode(ToLower(name)).value && |r| == 2 && r != name
  {
    match ProvinceCode(ToLower(name))
    case Some(code) => code
    case None => name
  }

  /** Normalizing twice is normalizing once: a two-letter code is no province name. */
  lemma NormalizeProvinceIdempotent(name: string)
    ensures NormalizeProvince(NormalizeProvince(name)) == NormalizeProvince(name)
  {
    var r := NormalizeProvince(name);
    if r != name {
      assert |ToLower(r)| == 2;
    }
  }

  lemma NormalizeProvinceExamples()
    ensures NormalizeProvince("Ontario") == "ON"
    ensures NormalizeProvince("ON") == "ON"
  {
    assert ToLower("Ontario") == "ontario";
    assert |ToLower("ON")| == 2;
  }

  // ---------------------------------------------------------------------
  // FilterListings
  // ---------------------------------------------------------------------

  /** The address mentions the city, ignoring ASCII case. */
  predicate InCity(l: RawListing, city: string)
  {
    Contains(ToLower(l.address), city)
  }

  /** The listings whose address mentions `city`, in their original order. */
  function InCityOnly(listings: seq<RawListing>, city: string): (r: seq<RawListing>)
    ensures |r| <= |listings|
  {
    if listings == [] then []
    else
      var last := listings[|listings| - 1];
      InCityOnly(listings[..|listings| - 1], city) + (if InCity(last, city) then [last] else [])
  }

  /** Exactly the listings in the city are kept. */
  lemma {:induction false} InCityOnlyMembers(listings: seq<RawListing>, city: string)
    ensures forall l :: l in InCityOnly(listings, city) <==> l in listings && InCity(l, city)
  {
    if listings != [] {
      var init := listings[..|listings| - 1];
      InCityOnlyMembers(init, city);
      assert listings == init + [listings[|listings| - 1]];
    }
  }

  /** Filtering distributes over concatenation: the order of the kept listings is the input order. */
  lemma {:induction false} InCityOnlyAppend(a: seq<RawListing>, b: seq<RawListing>, city: string)
    ensures InCityOnly(a + b, city) == InCityOnly(a, city) + InCityOnly(b, city)
    decreases |b|
  {
    if b == [] {
      assert a + b == a;
    } else {
      var b' := b[..|b| - 1];
      InCityOnlyAppend(a, b', city);
      assert (a + b)[..|a + b| - 1] == a + b';
    }
  }

  /** The filter loop: the city is the region's name up to its comma, compared in lower case. */
  method FilterListings(listings: seq<RawListing>, geoName: string) returns (result: seq<RawListing>)
    ensures result == InCityOnly(listings, ToLower(ExtractCityName(geoName)))
  {
    var cityName := ToLower(ExtractCityName(geoName));
    result := [];
    var i := 0;
    while i < |listings|
      invariant 0 <= i <= |listings|
      invariant result == InCityOnly(listings[..i], cityName)
    {
      assert listings[..i + 1][..i] == listings[..i];
      var l := listings[i];
      if Contains(ToLower(l.address), cityName) {
        result := result + [l];
      }
      i := i + 1;
    }
    assert listings[..i] == listings;
  }

  // ---------------------------------------------------------------------
  // ParseListing
  // ---------------------------------------------------------------------

  /** The fields of a canadesk record the adapter reads. */
  datatype Record = Record(
    id: string,
    mlsNumber: string,
    publicRemarks: string,
    relativeUrl: string,
    postalCode: string,
    provinceName: string,
    price: string,
    propertyType: string,
    addressText: string,
    city: string,
    photos: seq<ApiHandler.Photo>,
    bedrooms: string,
    bathroomTotal: string,
    sizeInterior: string,
    individuals: seq<RealtorInfo.Individual>)

  /** A decoded record as a listing; the raw bytes travel along as the listing's data. */
  function ToRawListing(r: Record, raw: string): (l: RawListing)
    ensures l.id == r.id && l.mls == r.mlsNumber && l.address == r.addressText
    ensures l.city == (if r.city != "" then r.city else ApiHandler.ExtractCity(r.addressText))
    ensures l.province == NormalizeProvince(r.provinceName) && l.postalCode == r.postalCode
    ensures l.price == ApiHandler.DigitsOf(r.price)
    ensures (l.beds, l.bedsPlus) == ParseBedrooms(r.bedrooms)
    ensures l.baths == IntString(r.bathroomTotal) && l.sqft == IntString(r.sizeInterior)
    ensures l.url == ApiHandler.RealtorBase + r.relativeUrl
    ensures l.realtor == RealtorInfo.RealtorOf(r.individuals) && l.data == Some(raw)
  {
    var beds := ParseBedrooms(r.bedrooms);
    var listing := RawListing(r.id, r.mlsNumber, r.addressText, r.city, NormalizeProvince(r.provinceName),
      r.postalCode, ApiHandler.DigitsOf(r.price), beds.0, beds.1, IntString(r.bathroomTotal),
      IntString(r.sizeInterior), r.propertyType, ApiHandler.RealtorBase + r.relativeUrl,
      ApiHandler.BestPaths(ApiHandler.WithPath(r.photos)), r.publicRemarks,
      RealtorInfo.RealtorOf(r.individuals), Some(raw));
    if listing.city == "" then listing.(city := ApiHandler.ExtractCity(r.addressText)) else listing
  }

  /** ParseListing: a record that does not decode is an error (the zero listing is not returned). */
  function ParseListing(decoded: Result<Record>, raw: string): (r: Result<RawListing>)
    ensures r.Err? <==> decoded.Err?
    ensures r.Ok? ==> r.value == ToRawListing(decoded.value, raw)
  {
    if decoded.Err? then Err(decoded.msg) else Ok(ToRawListing(decoded.value, raw))
  }
}
