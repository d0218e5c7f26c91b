/**
 * The browser-driven realtor.ca handler (scraper/browser_handler.go): the
 * field parsers it applies to an intercepted search response, the page
 * detector for the Incapsula challenge, the page bookkeeping of a browsing
 * session, and the page loop. The browser itself (clicks, the intercepted
 * response, delays) is an input: each click either succeeds or fails, and
 * the page shown yields a parse result or none.
 */
module BrowserHandler {
  import opened Util
  import opened Models
  import ApiHandler
  import Canadesk
  import RealtorInfo

  const ListingsPerPage := 12

  // ---------------------------------------------------------------------
  // extractCityFromAddress
  // ---------------------------------------------------------------------

  /**
   * extractCityFromAddress: the pieces between '|' and ',' that are not empty
   * once trimmed, and of those the second-to-last; "" with fewer than two.
   */
  function CityFromAddress(address: string): (r: string)
    ensures var parts := ApiHandler.Kept(ApiHandler.Segments(address), false);
      (|parts| >= 2 ==> r == parts[|parts| - 2] && r != "") && (|parts| < 2 ==> r == "")
  {
    var parts := ApiHandler.Kept(ApiHandler.Segments(address), false);
    if |parts| >= 2 then parts[|parts| - 2] else ""
  }

  /** The loop of extractCityFromAddress (the address scan that drops blank pieces), then the pick. */
  method ExtractCityFromAddress(address: string) returns (city: string)
    ensures city == CityFromAddress(address)
  {
    var parts := ApiHandler.ScanAddress(address, false);
    if |parts| >= 2 {
      return parts[|parts| - 2];
    }
    return "";
  }

  /** The non-empty entries of parts, in order. */
  function NonEmpty(parts: seq<string>): (r: seq<string>)
    ensures |r| <= |parts|
    ensures forall i :: 0 <= i < |r| ==> r[i] != ""
  {
    if parts == [] then []
    else (if parts[0] != "" then [parts[0]] else []) + NonEmpty(parts[1..])
  }

  lemma {:induction false} NonEmptyAppend(a: seq<string>, b: seq<string>)
    ensures NonEmpty(a + b) == NonEmpty(a) + NonEmpty(b)
  {
    if a != [] {
      assert (a + b)[0] == a[0] && (a + b)[1..] == a[1..] + b;
      NonEmptyAppend(a[1..], b);
    } else {
      assert a + b == b;
    }
  }

  /**
   * The browser's reading of an address is splitAddress's with the blank
   * parts removed: both trim the same pieces, and splitAddress only keeps
   * whitespace-only pieces as "".
   */
  lemma {:induction false} KeptDropsBlank(segs: seq<string>)
    ensures ApiHandler.Kept(segs, false) == NonEmpty(ApiHandler.Kept(segs, true))
  {
    if segs != [] {
      var p := segs[0];
      KeptDropsBlank(segs[1..]);
      NonEmptyAppend(ApiHandler.Piece(p, true), ApiHandler.Kept(segs[1..], true));
      if p == "" {
        assert ApiHandler.TrimBlank(p) == "";
      }
      var one := ApiHandler.Piece(p, true);
      assert NonEmpty(one) == ApiHandler.Piece(p, false) by {
        if one != [] {
          assert one[1..] == [];
        }
      }
    }
  }

  /** So the city the browser reads is the second-to-last non-blank part of splitAddress. */
  lemma CityFromAddressSplit(address: string)
    ensures var parts := NonEmpty(ApiHandler.SplitAddress(address));
      CityFromAddress(address) == if |parts| >= 2 then parts[|parts| - 2] else ""
  {
    ApiHandler.SplitAddressSegments(address);
    KeptDropsBlank(ApiHandler.Segments(address));
  }

  /** Text before its first separator makes up the first raw piece. */
  lemma SegmentsSep(a: string, c: char, b: string)
    requires forall j :: 0 <= j < |a| ==> !ApiHandler.IsAddressSep(a[j])
    requires ApiHandler.IsAddressSep(c)
    ensures ApiHandler.Segments(a + [c] + b) == [a] + ApiHandler.Segments(b)
  {
    var s := a + [c] + b;
    assert s[|a|] == c;
    assert forall j :: 0 <= j < |a| ==> s[j] == a[j];
    assert ApiHandler.IndexOfSep(s) == |a|;
    assert s[..|a|] == a && s[|a| + 1..] == b;
  }

  /** Text without a separator is a single raw piece. */
  lemma SegmentsNone(a: string)
    requires forall j :: 0 <= j < |a| ==> !ApiHandler.IsAddressSep(a[j])
    ensures ApiHandler.Segments(a) == [a]
  {
    assert ApiHandler.IndexOfSep(a) == |a|;
  }

  /**
   * The documented "Street|City, Province Postal" shape (as in "939
   * Chateau|Windsor, Ontario N8P0E6"): the city is the middle piece, trimmed.
   */
  lemma CityOfStreetCityRest(street: string, city: string, rest: string)
    requires forall j :: 0 <= j < |street| ==> !ApiHandler.IsAddressSep(street[j])
    requires forall j :: 0 <= j < |city| ==> !ApiHandler.IsAddressSep(city[j])
    requires forall j :: 0 <= j < |rest| ==> !ApiHandler.IsAddressSep(rest[j])
    requires ApiHandler.TrimBlank(street) != "" && ApiHandler.TrimBlank(city) != "" && ApiHandler.TrimBlank(rest) != ""
    ensures CityFromAddress(street + "|" + city + "," + rest) == ApiHandler.TrimBlank(city)
  {
    var tail := city + "," + rest;
    SegmentsSep(city, ',', rest);
    SegmentsNone(rest);
    assert street + "|" + tail == street + "|" + city + "," + rest;
    SegmentsSep(street, '|', tail);
    var segs := [street, city, rest];
    assert ApiHandler.Segments(street + "|" + city + "," + rest) == segs;
    ApiHandler.KeptCons(street, [city, rest], false);
    ApiHandler.KeptCons(city, [rest], false);
    ApiHandler.KeptCons(rest, [], false);
    assert [street] + [city, rest] == segs && [city] + [rest] == [city, rest] && [rest] + [] == [rest];
  }

  // ---------------------------------------------------------------------
  // parsePriceString / parseSqFtString
  // ---------------------------------------------------------------------

  /** Every digit counts: "$1,149,900" reads 1149900. */
  lemma PriceExample()
    ensures ApiHandler.DigitsOf("$1,149,900") == 1149900
  {
    PriceDollar();
    PriceFirstComma();
    PriceSecondComma();
    PriceNumeral();
    ApiHandler.DigitsOfNat(1149900);
  }

  lemma PriceNumeral()
    ensures NatToString(1149900) == "1149900"
  {
    assert NatToString(11499) == "11499";
  }

  lemma PriceDollar()
    ensures ApiHandler.DigitsOf("$1,149,900") == ApiHandler.DigitsOf("1,149,900")
  {
    ApiHandler.DigitsOfSkips([], '$', "1,149,900");
    assert [] + ['$'] + "1,149,900" == "$1,149,900";
    assert [] + "1,149,900" == "1,149,900";
  }

  /** The thousands comma after the millions is skipped. */
  lemma PriceFirstComma()
    ensures ApiHandler.DigitsOf("1,149,900") == ApiHandler.DigitsOf("1149,900")
  {
    ApiHandler.DigitsOfSkips("1", ',', "149,900");
    assert "1" + [','] + "149,900" == "1,149,900";
    assert "1" + "149,900" == "1149,900";
  }

  /** So is the one after the thousands, leaving the bare numeral. */
  lemma PriceSecondComma()
    ensures ApiHandler.DigitsOf("1149,900") == ApiHandler.DigitsOf("1149900")
  {
    var head, tail := "1149", "900";
    ApiHandler.DigitsOfSkips(head, ',', tail);
    assert head + [','] + tail == "1149,900";
    assert head + tail == "1149900";
  }

  /** The decimal point is skipped as well: the documented "2360.0000" reads 23600000, not 2360. */
  lemma SqFtExample()
    ensures ApiHandler.DigitsOf("2360.0000") == 23600000
  {
    ApiHandler.DigitsOfSkips("2360", '.', "0000");
    assert "2360" + ['.'] + "0000" == "2360.0000";
    assert "2360" + "0000" == "23600000";
    assert NatToString(23600000) == "23600000";
    ApiHandler.DigitsOfNat(23600000);
  }

  // ---------------------------------------------------------------------
  // toInt and parseBedsInterface
  // ---------------------------------------------------------------------

  /**
   * The state of toInt's string loop after a prefix: the value so far,
   * whether a digit has been seen, and whether the loop has stopped (at the
   * first non-digit after a digit).
   */
  function RunScan(s: string): (r: (nat, bool, bool))
    ensures r.2 ==> r.1
  {
    if s == [] then (0, false, false)
    else
      var prev := RunScan(s[..|s| - 1]);
      var c := s[|s| - 1];
      if prev.2 then prev
      else if IsDigit(c) then (10 * prev.0 + DigitValue(c), true, false)
      else if prev.1 then (prev.0, true, true)
      else prev
  }

  /** toInt on a string: the value of its first run of digits (0 when there is none). */
  function FirstDigitRun(s: string): nat
  {
    RunScan(s).0
  }

  /** The string arm of toInt, with its break. */
  method ToIntString(s: string) returns (r: nat)
    ensures r == FirstDigitRun(s)
  {
    r := 0;
    var started := false;
    var i := 0;
    while i < |s|
      invariant 0 <= i <= |s|
      invariant RunScan(s[..i]) == (r, started, false)
    {
      assert s[..i + 1][..i] == s[..i];
      var c := s[i];
      if '0' <= c <= '9' {
        r := r * 10 + ((c as int) - ('0' as int));
        started := true;
      } else if started {
        RunScanStopped(s[..i + 1], s[i + 1..]);
        assert s[..i + 1] + s[i + 1..] == s;
        return;
      }
      i := i + 1;
    }
    assert s[..i] == s;
  }

  /** Once stopped, the loop reads nothing more. */
  lemma {:induction false} RunScanStopped(p: string, q: string)
    requires RunScan(p).2
    ensures RunScan(p + q) == RunScan(p)
    decreases |q|
  {
    if q == [] {
      assert p + q == p;
    } else {
      var q' := q[..|q| - 1];
      RunScanStopped(p, q');
      assert (p + q)[..|p + q| - 1] == p + q';
    }
  }

  /** Text without digits leaves the loop where it started. */
  lemma {:induction false} RunScanNoDigits(p: string)
    requires forall i :: 0 <= i < |p| ==> !IsDigit(p[i])
    ensures RunScan(p) == (0, false, false)
  {
    if p != [] {
      RunScanNoDigits(p[..|p| - 1]);
    }
  }

  /** From the starting state, a run of digits accumulates its decimal value. */
  lemma {:induction false} RunScanDigits(p: string, d: string)
    requires RunScan(p) == (0, false, false)
    requires forall i :: 0 <= i < |d| ==> IsDigit(d[i])
    ensures RunScan(p + d) == (DigitsValue(d), d != [], false)
    decreases |d|
  {
    if d == [] {
      assert p + d == p;
    } else {
      var d' := d[..|d| - 1];
      RunScanDigits(p, d');
      assert (p + d)[..|p + d| - 1] == p + d';
    }
  }

  /**
   * toInt reads the first run of digits and nothing after it: with no digit
   * before the run, and the run ended by a non-digit or by the end of the
   * text, the result is the run's value ("3 baths, 2 half" reads 3).
   */
  lemma FirstDigitRunReads(pre: string, d: string, rest: string)
    requires forall i :: 0 <= i < |pre| ==> !IsDigit(pre[i])
    requires d != [] && forall i :: 0 <= i < |d| ==> IsDigit(d[i])
    requires rest == [] || !IsDigit(rest[0])
    ensures FirstDigitRun(pre + d + rest) == DigitsValue(d)
  {
    RunScanNoDigits(pre);
    RunScanDigits(pre, d);
    var s := pre + d;
    if rest == [] {
      assert s + rest == s;
    } else {
      RunScanStopsAt(s, rest[0]);
      RunScanStopped(s + [rest[0]], rest[1..]);
      SplitFirst(s, rest);
    }
  }

  /** s + rest, with the first character of rest taken apart. */
  lemma SplitFirst(s: string, rest: string)
    requires rest != []
    ensures s + [rest[0]] + rest[1..] == s + rest
  {
    assert [rest[0]] + rest[1..] == rest;
  }

  /** A non-digit after a digit stops the loop, keeping its value. */
  lemma RunScanStopsAt(s: string, c: char)
    requires RunScan(s).1 && !RunScan(s).2 && !IsDigit(c)
    ensures RunScan(s + [c]) == (RunScan(s).0, true, true)
  {
    assert (s + [c])[..|s|] == s;
  }

  /** Unlike parseIntString, a zero run counts: "0.5" reads 0 here and 5 there. */
  lemma FirstDigitRunLeadingZero()
    ensures FirstDigitRun("0.5") == 0 && Canadesk.IntString("0.5") == 5
  {
    FirstDigitRunReads([], "0", ".5");
    assert [] + "0" + ".5" == "0.5";
    Canadesk.IntStringLeadingZero();
  }

  /**
   * A decoded JSON value as toInt sees it: a number (already truncated
   * toward zero, as int(float64) does), a string, or anything else.
   */
  datatype JsonValue = JNumber(whole: int) | JString(text: string) | JOther

  /** toInt: numbers as they are, strings by their first digit run, everything else 0. */
  function ToInt(v: JsonValue): (r: int)
    ensures v.JNumber? ==> r == v.whole
    ensures v.JString? ==> r == FirstDigitRun(v.text)
    ensures v.JOther? ==> r == 0
  {
    match v
    case JNumber(n) => n
    case JString(s) => FirstDigitRun(s)
    case JOther => 0
  }

  /** parseBedsInterface: a string goes through parseBedrooms, any other value through toInt with no extra bedrooms. */
  function ParseBedsInterface(v: JsonValue): (r: (int, int))
    ensures v.JString? ==> r == Canadesk.ParseBedrooms(v.text)
    ensures !v.JString? ==> r == (ToInt(v), 0)
  {
    if v.JString? then Canadesk.ParseBedrooms(v.text) else (ToInt(v), 0)
  }

  /** "3 + 1" in the Bedrooms field gives three bedrooms and one more. */
  lemma ParseBedsExample()
    ensures ParseBedsInterface(JString("3 + 1")) == (3, 1)
  {
    Canadesk.ParseBedroomsExample();
  }

  // ---------------------------------------------------------------------
  // detectIncapsula
  // ---------------------------------------------------------------------

  /** The texts that tell an Incapsula challenge page, in the order they are tried. */
  const Triggers: seq<string> := ["Request unsuccessful. Incapsula", "Incapsula incident ID", "Access Denied", "This request was blocked"]

  /** Markers of a page that shows results: such a page is never taken for a challenge. */
  predicate ShowsResults(content: string)
  {
    Contains(content, "listingCard") || Contains(content, "ResultsPaginationCon")
  }

  /** The first of ts that occurs in content, or "" when none does. */
  function FirstTrigger(content: string, ts: seq<string>): (r: string)
    ensures r == "" || (r in ts && Contains(content, r))
  {
    if ts == [] then ""
    else if Contains(content, ts[0]) then ts[0]
    else FirstTrigger(content, ts[1..])
  }

  /** detectIncapsula: "" for a results page, otherwise the first trigger the page contains. */
  function Incapsula(content: string): (r: string)
    ensures ShowsResults(content) ==> r == ""
    ensures !ShowsResults(content) ==> r == FirstTrigger(content, Triggers)
  {
    if ShowsResults(content) then "" else FirstTrigger(content, Triggers)
  }

  /**
   * A challenge is reported exactly when the page shows no results and
   * contains a trigger, and what is reported is the earliest trigger it contains.
   */
  lemma IncapsulaCases(content: string)
    ensures Incapsula(content) != "" <==>
      !ShowsResults(content) && exists k :: 0 <= k < |Triggers| && Contains(content, Triggers[k])
    ensures Incapsula(content) != "" ==>
      exists k :: 0 <= k < |Triggers| && Incapsula(content) == Triggers[k]
        && (forall j :: 0 <= j < k ==> !Contains(content, Triggers[j]))
  {
    if !ShowsResults(content) {
      FirstTriggerIsFirst(content, Triggers);
    }
  }

  lemma {:induction false} FirstTriggerIsFirst(content: string, ts: seq<string>)
    requires forall k :: 0 <= k < |ts| ==> ts[k] != ""
    ensures FirstTrigger(content, ts) != "" <==> exists k :: 0 <= k < |ts| && Contains(content, ts[k])
    ensures FirstTrigger(content, ts) != "" ==>
      exists k :: 0 <= k < |ts| && FirstTrigger(content, ts) == ts[k]
        && (forall j :: 0 <= j < k ==> !Contains(content, ts[j]))
  {
    if ts != [] {
      if Contains(content, ts[0]) {
        assert FirstTrigger(content, ts) == ts[0];
      } else {
        FirstTriggerIsFirst(content, ts[1..]);
        if FirstTrigger(content, ts[1..]) != "" {
          var k :| 0 <= k < |ts[1..]| && FirstTrigger(content, ts[1..]) == ts[1..][k]
            && (forall j :: 0 <= j < k ==> !Contains(content, ts[1..][j]));
          assert ts[k + 1] == ts[1..][k];
          forall j | 0 <= j < k + 1
            ensures !Contains(content, ts[j])
          {
            if j > 0 {
              assert ts[j] == ts[1..][j - 1];
            }
          }
        } else {
          forall k | 0 <= k < |ts|
            ensures !Contains(content, ts[k])
          {
            if k > 0 {
              assert ts[k] == ts[1..][k - 1];
            }
          }
        }
      }
    }
  }

  /** The trigger loop of detectIncapsula. */
  method DetectIncapsula(content: string) returns (trigger: string)
    ensures trigger == Incapsula(content)
  {
    if Contains(content, "listingCard") || Contains(content, "ResultsPaginationCon") {
      return "";
    }
    var i := 0;
    while i < |Triggers|
      invariant 0 <= i <= |Triggers|
      invariant FirstTrigger(content, Triggers[i..]) == FirstTrigger(content, Triggers)
    {
      assert Triggers[i..][1..] == Triggers[i + 1..];
      if Contains(content, Triggers[i]) {
        return Triggers[i];
      }
      i := i + 1;
    }
    return "";
  }

  // ---------------------------------------------------------------------
  // parseRealtorCAResponse
  // ---------------------------------------------------------------------

  /** The fields of one search result the handler reads; Id is kept as the text %v prints for it. */
  datatype Record = Record(
    id: string,
    mlsNumber: string,
    publicRemarks: string,
    postalCode: string,
    relativeUrl: string,
    price: string,
    propertyType: string,
    addressText: string,
    photos: seq<ApiHandler.Photo>,
    bedrooms: JsonValue,
    bathroomTotal: JsonValue,
    sizeInterior: string,
    individuals: seq<RealtorInfo.Individual>)

  /** One result as a listing: no province, the city from the address, the raw result as its data. */
  function ToRawListing(r: Record, raw: string): (l: RawListing)
    ensures l.id == r.id && l.mls == r.mlsNumber && l.address == r.addressText && l.province == ""
    ensures l.city == CityFromAddress(r.addressText) && l.postalCode == r.postalCode
    ensures l.price == ApiHandler.DigitsOf(r.price) && l.sqft == ApiHandler.DigitsOf(r.sizeInterior)
    ensures (l.beds, l.bedsPlus) == ParseBedsInterface(r.bedrooms) && l.baths == ToInt(r.bathroomTotal)
    ensures l.url == ApiHandler.RealtorBase + r.relativeUrl
    ensures |l.photos| <= |r.photos| && (r.photos == [] ==> l.photos == [])
    ensures l.realtor.None? <==> r.individuals == []
    ensures l.data == Some(raw)
  {
    var beds := ParseBedsInterface(r.bedrooms);
    RawListing(r.id, r.mlsNumber, r.addressText, CityFromAddress(r.addressText), "", r.postalCode,
      ApiHandler.DigitsOf(r.price), beds.0, beds.1, ToInt(r.bathroomTotal), ApiHandler.DigitsOf(r.sizeInterior),
      r.propertyType, ApiHandler.RealtorBase + r.relativeUrl, ApiHandler.BestPaths(ApiHandler.WithPath(r.photos)),
      r.publicRemarks, RealtorInfo.RealtorOf(r.individuals), Some(raw))
  }

  /** A result as it arrives: its raw bytes and what decoding them gives. */
  datatype Entry = Entry(raw: string, decoded: Result<Record>)

  /**
   * The results that decode, each mapped to a listing by toListing, in order;
   * the others are skipped. parseRealtorCAResponse maps with ToRawListing.
   */
  function Decoded(results: seq<Entry>, toListing: (Record, string) -> RawListing): (r: seq<RawListing>)
    ensures |r| <= |results|
  {
    if results == [] then []
    else Decoded(results[..|results| - 1], toListing) + DecodedOne(results[|results| - 1], toListing)
  }

  /** The listing one result contributes: none when it does not decode. */
  function DecodedOne(e: Entry, toListing: (Record, string) -> RawListing): (r: seq<RawListing>)
    ensures |r| <= 1
  {
    if e.decoded.Ok? then [toListing(e.decoded.value, e.raw)] else []
  }

  /** Concatenation regrouped. */
  lemma Regroup(x: seq<RawListing>, y: seq<RawListing>, z: seq<RawListing>)
    ensures x + y + z == x + (y + z)
  {
  }

  /** The last result of a non-empty b is the last of a + b. */
  lemma DecodedAppendLast(a: seq<Entry>, b: seq<Entry>, toListing: (Record, string) -> RawListing)
    requires b != []
    ensures Decoded(a + b, toListing) == Decoded(a + b[..|b| - 1], toListing) + DecodedOne(b[|b| - 1], toListing)
  {
    assert (a + b)[..|a + b| - 1] == a + b[..|b| - 1];
    assert (a + b)[|a + b| - 1] == b[|b| - 1];
  }

  /** Decoding one more result of a response. */
  lemma DecodedSnoc(results: seq<Entry>, i: nat, toListing: (Record, string) -> RawListing)
    requires i < |results|
    ensures Decoded(results[..i + 1], toListing) == Decoded(results[..i], toListing) + DecodedOne(results[i], toListing)
  {
    assert results[..i + 1][..i] == results[..i];
  }

  /** parseRealtorCAResponse: an envelope that does not decode is an error; otherwise the decodable results. */
  function ParseResponse(envelope: Result<seq<Entry>>): (r: Result<seq<RawListing>>)
    ensures r.Err? <==> envelope.Err?
    ensures r.Ok? ==> r.value == Decoded(envelope.value, ToRawListing)
  {
    if envelope.Err? then Err("failed to parse response: " + envelope.msg) else Ok(Decoded(envelope.value, ToRawListing))
  }

  /** The result loop of parseRealtorCAResponse, skipping results that do not decode. */
  method ParseRealtorCAResponse(envelope: Result<seq<Entry>>) returns (r: Result<seq<RawListing>>)
    ensures r == ParseResponse(envelope)
  {
    if envelope.Err? {
      return Err("failed to parse response: " + envelope.msg);
    }
    var results := envelope.value;
    var listings: seq<RawListing> := [];
    var i := 0;
    while i < |results|
      invariant 0 <= i <= |results|
      invariant listings == Decoded(results[..i], ToRawListing)
    {
      DecodedSnoc(results, i, ToRawListing);
      var e := results[i];
      if e.decoded.Err? {
        i := i + 1;
        continue;
      }
      listings := listings + [ToRawListing(e.decoded.value, e.raw)];
      i := i + 1;
    }
    assert results[..i] == results;
    return Ok(listings);
  }

  /** Concatenated responses parse to the concatenated listings: order is kept. */
  lemma {:induction false} DecodedAppend(a: seq<Entry>, b: seq<Entry>, toListing: (Record, string) -> RawListing)
    ensures Decoded(a + b, toListing) == Decoded(a, toListing) + Decoded(b, toListing)
    decreases |b|
  {
    if b == [] {
      assert a + b == a;
    } else {
      DecodedAppend(a, b[..|b| - 1], toListing);
      DecodedAppendLast(a, b, toListing);
      Regroup(Decoded(a, toListing), Decoded(b[..|b| - 1], toListing), DecodedOne(b[|b| - 1], toListing));
    }
  }

  /** When every result decodes, there is one listing per result, in order. */
  lemma {:induction false} DecodedAll(results: seq<Entry>, toListing: (Record, string) -> RawListing)
    requires forall i :: 0 <= i < |results| ==> results[i].decoded.Ok?
    ensures |Decoded(results, toListing)| == |results|
    ensures forall i :: 0 <= i < |results| ==>
      Decoded(results, toListing)[i] == toListing(results[i].decoded.value, results[i].raw)
  {
    if results != [] {
      DecodedAll(results[..|results| - 1], toListing);
    }
  }

  /** A result that does not decode contributes nothing. */
  lemma DecodedSkip(a: seq<Entry>, e: Entry, b: seq<Entry>, toListing: (Record, string) -> RawListing)
    requires e.decoded.Err?
    ensures Decoded(a + [e] + b, toListing) == Decoded(a, toListing) + Decoded(b, toListing)
  {
    DecodedAppend(a + [e], b, toListing);
    assert (a + [e])[..|a + [e]| - 1] == a;
    assert Decoded(a + [e], toListing) == Decoded(a, toListing);
  }

  /**
   * parseCurrentPage: no intercepted response, an envelope that does not
   * decode, or a response without listings (a nil slice in the source) give
   * no page.
   */
  function CurrentPage(intercepted: Option<Result<seq<Entry>>>): (r: Option<seq<RawListing>>)
    ensures r.Some? ==> r.value != []
    ensures r.Some? <==> intercepted.Some? && ParseResponse(intercepted.value).Ok? && ParseResponse(intercepted.value).value != []
  {
    if intercepted.None? then None
    else
      match ParseResponse(intercepted.value)
      case Err(_) => None
      case Ok(ls) => if ls == [] then None else Some(ls)
  }

  // ---------------------------------------------------------------------
  // Page bookkeeping: startSession's warmup and navigateToPage
  // ---------------------------------------------------------------------

  /** Far targets (behind the current page, or more than five ahead) are reached by a jump. */
  predicate NeedsJump(current: int, target: int)
  {
    target < current || target > current + 5
  }

  /** Where the session stands before clicking: two pages short of the target after a jump, never below page 1. */
  function Landing(current: int, target: int): (p: int)
    ensures NeedsJump(current, target) ==> p == (if target - 2 < 1 then 1 else target - 2)
    ensures !NeedsJump(current, target) ==> p == current
  {
    if NeedsJump(current, target) then (if target - 2 < 1 then 1 else target - 2) else current
  }

  /** Clicking forward needs at most five clicks, and after a jump at most two. */
  lemma LandingClicks(current: int, target: int)
    requires target >= 1
    ensures Landing(current, target) <= target
    ensures target - Landing(current, target) <= 5
    ensures NeedsJump(current, target) ==> target - Landing(current, target) <= 2
  {
  }

  /** The page reached by clicking "next" from page `from` towards `target`, stopping at the first failed click. */
  function Reach(from: int, target: int, clickOk: int -> bool): (r: int)
    ensures r >= from
    ensures r <= target || r == from
    ensures r < target ==> !clickOk(r + 1)
    ensures forall p :: from < p <= r ==> clickOk(p)
    decreases target - from
  {
    if from >= target then from
    else if !clickOk(from + 1) then from
    else Reach(from + 1, target, clickOk)
  }

  /**
   * The browsing session's page state: the page it is on and the pages read
   * during the warmup that have not been handed out yet.
   */
  class PageCursor {
    var current: int
    var warmup: map<int, seq<RawListing>>

    constructor ()
      ensures current == 0 && warmup == map[]
    {
      current := 0;
      warmup := map[];
    }

    /**
     * The warmup of startSession: pages 1 to 3, clicking "next" before pages
     * 2 and 3 and stopping at a failed click; every page read is kept.
     * clickOk(p) is whether the click onto page p works, pageAt(p) what
     * parseCurrentPage gives on page p.
     */
    method Warmup(clickOk: int -> bool, pageAt: int -> Option<seq<RawListing>>)
      modifies this
      ensures current == Reach(1, 3, clickOk)
      ensures warmup == map p | 1 <= p <= current && pageAt(p).Some? :: pageAt(p).value
    {
      current := 0;
      warmup := map[];
      var wp := 1;
      while wp <= 3
        invariant 1 <= wp <= 4
        invariant current == wp - 1
        invariant forall p :: 1 < p < wp ==> clickOk(p)
        invariant warmup == map p | 1 <= p <= current && pageAt(p).Some? :: pageAt(p).value
      {
        if wp > 1 && !clickOk(wp) {
          break;
        }
        current := wp;
        var page := pageAt(wp);
        if page.Some? {
          warmup := warmup[wp := page.value];
        }
        wp := wp + 1;
      }
      assert current == Reach(1, 3, clickOk) by {
        if current < 3 {
          assert !clickOk(current + 1);
        }
        WarmupReach(current, clickOk);
      }
    }

    /**
     * navigateToPage: a page kept from the warmup is handed out once and
     * forgotten; otherwise the session moves to the target (see MoveTo) and
     * reads the page it is on. A failed click is an error naming the page
     * it was for.
     */
    method NavigateTo(target: int, clickOk: int -> bool, pageAt: int -> Option<seq<RawListing>>)
      returns (r: Result<seq<RawListing>>)
      modifies this
      ensures old(target in warmup) ==>
        r == Ok(old(warmup)[target]) && warmup == old(warmup) - {target} && current == old(current)
      ensures !old(target in warmup) ==> warmup == old(warmup)
      ensures !old(target in warmup) ==> current == Reach(Landing(old(current), target), target, clickOk)
      ensures !old(target in warmup) && current < target ==>
        r == Err("failed to click to page " + IntToString(current + 1))
      ensures !old(target in warmup) && current >= target ==>
        r == (if pageAt(current).Some? then Ok(pageAt(current).value) else Err("no API response on page " + IntToString(target)))
    {
      if target in warmup {
        var listings := warmup[target];
        warmup := warmup - {target};
        return Ok(listings);
      }
      MoveTo(target, clickOk);
      if current < target {
        return Err("failed to click to page " + IntToString(current + 1));
      }
      var page := pageAt(current);
      if page.None? {
        return Err("no API response on page " + IntToString(target));
      }
      return Ok(page.value);
    }

    /**
     * The moves of navigateToPage: a far target is first jumped to (two pages
     * short of it, never below page 1), then "next" is clicked until the
     * target or the first failed click.
     */
    method MoveTo(target: int, clickOk: int -> bool)
      modifies this
      ensures warmup == old(warmup)
      ensures current == Reach(Landing(old(current), target), target, clickOk)
    {
      ghost var start := Landing(current, target);
      if target < current || target > current + 5 {
        var jumpTo := target - 2;
        if jumpTo < 1 {
          jumpTo := 1;
        }
        current := jumpTo;
      }
      while current < target
        invariant Reach(current, target, clickOk) == Reach(start, target, clickOk)
        invariant warmup == old(warmup)
        decreases target - current
      {
        if !clickOk(current + 1) {
          return;
        }
        current := current + 1;
      }
    }
  }

  /** The warmup reaches page 3 unless a click fails first. */
  lemma WarmupReach(current: int, clickOk: int -> bool)
    requires 1 <= current <= 3
    requires forall p :: 1 < p <= current ==> clickOk(p)
    requires current < 3 ==> !clickOk(current + 1)
    ensures current == Reach(1, 3, clickOk)
  {
    if current >= 2 {
      assert clickOk(2);
      if current == 3 {
        assert clickOk(3);
      }
    }
  }

  // ---------------------------------------------------------------------
  // scrapeRealtorCA: the page loop
  // ---------------------------------------------------------------------

  /**
   * scrapeRealtorCA: `browser` and `session` are the outcomes of
   * ensureBrowser and startSession, either of which fails the scrape before
   * any page is read; then the loop over what navigateToPage gives for pages
   * 1, 2, ... (pages[0] is page 1), with the pages of 12 listings of the
   * browser. Unlike the API handler, a failed page only ends the loop: the
   * pages read before it are returned.
   */
  method ScrapeRealtorCA(browser: Result<()>, session: Result<()>, pages: seq<Result<seq<RawListing>>>)
    returns (r: Result<seq<RawListing>>)
    requires browser.Ok? && session.Ok? ==> exists k :: 0 <= k < |pages| && ApiHandler.Stops(pages[k], ListingsPerPage)
    ensures browser.Err? ==> r == Err(browser.msg)
    ensures browser.Ok? && session.Err? ==> r == Err(session.msg)
    ensures browser.Ok? && session.Ok? ==>
      r == Ok(ApiHandler.Collected(pages[..ApiHandler.FirstStop(pages, ListingsPerPage) + 1]))
  {
    if browser.Err? {
      return Err(browser.msg);
    }
    if session.Err? {
      return Err(session.msg);
    }
    var all := ReadPages(pages);
    r := Ok(all);
  }

  /** The page loop of scrapeRealtorCA, once the session is open. */
  method ReadPages(pages: seq<Result<seq<RawListing>>>) returns (all: seq<RawListing>)
    requires exists k :: 0 <= k < |pages| && ApiHandler.Stops(pages[k], ListingsPerPage)
    ensures all == ApiHandler.Collected(pages[..ApiHandler.FirstStop(pages, ListingsPerPage) + 1])
  {
    ghost var k := ApiHandler.FirstStop(pages, ListingsPerPage);
    all := [];
    var i := 0;
    while true
      invariant 0 <= i <= k
      invariant all == ApiHandler.Collected(pages[..i])
      decreases k - i
    {
      assert pages[..i + 1][..i] == pages[..i];
      var page := pages[i];
      if page.Err? {
        return;
      }
      if |page.value| == 0 {
        return;
      }
      all := all + page.value;
      if |page.value| < ListingsPerPage {
        return;
      }
      i := i + 1;
    }
  }

  /**
   * A failing page adds nothing: when the first stopping page `k` is an
   * error, the scrape keeps exactly what pages before it held.
   */
  lemma ErrorKeepsEarlierPages(pages: seq<Result<seq<RawListing>>>, k: nat)
    requires k < |pages| && pages[k].Err?
    ensures ApiHandler.Collected(pages[..k + 1]) == ApiHandler.Collected(pages[..k])
  {
    assert pages[..k + 1][..k] == pages[..k];
  }
}
