/**
 * The enrichment worker (workers/enrichment.go): it picks active listings
 * that have not been enriched yet, fetches each listing page (through
 * ScrapingBee when a key is configured, else through Playwright), extracts
 * photos, the description and property details, and merges them into the
 * listing row and its property.
 *
 * Page fetching and the regular expressions that cut values out of the
 * page are inputs: a value arrives as the text the expression captured,
 * the photo matches as a sequence of URLs, and each fetch as a Result.
 */
module Enrichment {
  import opened Util
  import opened Models
  import BrowserHandler
  import opened Signal

  // ---------------------------------------------------------------------
  // extractHTMLList / extractList
  // ---------------------------------------------------------------------

  /** The parts, each trimmed of white space, the blank ones dropped, in order. */
  function Trimmed(parts: seq<string>): (r: seq<string>)
    ensures |r| <= |parts|
  {
    if parts == [] then []
    else
      var t := TrimSpace(parts[|parts| - 1]);
      Trimmed(parts[..|parts| - 1]) + (if t == "" then [] else [t])
  }

  /**
   * extractHTMLList (and extractList, which does the same on the text of a
   * located element): no items for an empty value, else the comma-separated
   * items, trimmed, without the blank ones.
   */
  function ListItems(val: string): (r: seq<string>)
  {
    if val == "" then [] else Trimmed(Split(val, ','))
  }

  /** extractHTMLList: no items for an empty value, else the split parts through TrimParts. */
  method ExtractHTMLList(val: string) returns (items: seq<string>)
    ensures items == ListItems(val)
  {
    if val == "" {
      return [];
    }
    var parts := Split(val, ',');
    items := TrimParts(parts);
  }

  /** The loop of extractHTMLList over the split parts. */
  method TrimParts(parts: seq<string>) returns (items: seq<string>)
    ensures items == Trimmed(parts)
  {
    items := [];
    var i := 0;
    while i < |parts|
      invariant 0 <= i <= |parts|
      invariant items == Trimmed(parts[..i])
    {
      assert parts[..i + 1][..i] == parts[..i];
      var p := TrimSpace(parts[i]);
      if p != "" {
        items := items + [p];
      }
      i := i + 1;
    }
    assert parts[..i] == parts;
  }

  /** Trimming keeps only characters of the original. */
  lemma TrimSpaceWithin(s: string, c: char)
    requires c in TrimSpace(s)
    ensures c in s
  {
    var l := TrimLeftSpace(s);
    var r := TrimRightSpace(l);
    assert r == l[..|r|];
    assert l == s[|s| - |l|..];
  }

  /** Every item is non-blank, has no white space at either end and holds no comma. */
  lemma {:induction false} TrimmedItems(parts: seq<string>)
    requires forall j :: 0 <= j < |parts| ==> ',' !in parts[j]
    ensures forall k :: 0 <= k < |Trimmed(parts)| ==>
      var t := Trimmed(parts)[k];
      t != "" && !IsSpace(t[0]) && !IsSpace(t[|t| - 1]) && ',' !in t
  {
    if parts != [] {
      var n := |parts| - 1;
      TrimmedItems(parts[..n]);
      if ',' in TrimSpace(parts[n]) {
        TrimSpaceWithin(parts[n], ',');
      }
    }
  }

  lemma ListItemsShape(val: string)
    ensures forall k :: 0 <= k < |ListItems(val)| ==>
      var t := ListItems(val)[k];
      t != "" && !IsSpace(t[0]) && !IsSpace(t[|t| - 1]) && ',' !in t
  {
    if val != "" {
      TrimmedItems(Split(val, ','));
    }
  }

  /** The guard for the empty value changes nothing: the split of "" is one blank part. */
  lemma ListItemsUnguarded(val: string)
    ensures ListItems(val) == Trimmed(Split(val, ','))
  {
    if val == "" {
      assert Split(val, ',') == [""];
      assert TrimSpace("") == "";
    }
  }

  /** An item with no comma and no white space at either end. */
  predicate IsItem(t: string)
  {
    t != "" && !IsSpace(t[0]) && !IsSpace(t[|t| - 1]) && ',' !in t
  }

  lemma TrimSpaceOfItem(t: string)
    requires IsItem(t)
    ensures TrimSpace(t) == t
  {
  }

  /** Splitting a comma-joined list of comma-free parts gives the parts back. */
  lemma {:induction false} SplitJoin(parts: seq<string>)
    requires parts != []
    requires forall j :: 0 <= j < |parts| ==> ',' !in parts[j]
    ensures Split(Join(parts, ","), ',') == parts
  {
    var h := parts[0];
    if |parts| == 1 {
      assert IndexOfChar(h, ',') == |h|;
    } else {
      var t := parts[1..];
      SplitJoin(t);
      JoinCons(h, t, ",");
      var s := h + "," + Join(t, ",");
      assert IndexOfChar(s, ',') == |h| by {
        assert s[|h|] == ',';
        assert forall j :: 0 <= j < |h| ==> s[j] == h[j];
      }
      assert s[..|h|] == h;
      assert s[|h| + 1..] == Join(t, ",");
      assert [h] + t == parts;
    }
  }

  lemma {:induction false} TrimmedItemsKept(items: seq<string>)
    requires forall j :: 0 <= j < |items| ==> IsItem(items[j])
    ensures Trimmed(items) == items
  {
    if items != [] {
      var n := |items| - 1;
      TrimSpaceOfItem(items[n]);
      TrimmedItemsKept(items[..n]);
      assert items[..n] + [items[n]] == items;
    }
  }

  /** A list written as "a, b, c" without blank items reads back as those items, in order. */
  lemma ListItemsOfJoin(items: seq<string>)
    requires forall j :: 0 <= j < |items| ==> IsItem(items[j])
    ensures ListItems(Join(items, ",")) == items
  {
    if items != [] {
      SplitJoin(items);
      TrimmedItemsKept(items);
      ListItemsUnguarded(Join(items, ","));
    }
  }

  // ---------------------------------------------------------------------
  // extractHTMLInt
  // ---------------------------------------------------------------------

  /**
   * extractHTMLInt: 0 for an empty value, else the value of the first run of
   * digits the `(\d+)` expression finds (0 when there is none).
   */
  function HTMLInt(val: string): (r: nat)
    ensures r == BrowserHandler.FirstDigitRun(val)
  {
    if val == "" then 0 else BrowserHandler.FirstDigitRun(val)
  }

  /** "Built in 1987" gives 1987: the digits after a digit-free prefix, up to the next non-digit. */
  lemma HTMLIntReads(pre: string, d: string, rest: string)
    requires forall i :: 0 <= i < |pre| ==> !IsDigit(pre[i])
    requires d != [] && forall i :: 0 <= i < |d| ==> IsDigit(d[i])
    requires rest == [] || !IsDigit(rest[0])
    ensures HTMLInt(pre + d + rest) == DigitsValue(d)
  {
    BrowserHandler.FirstDigitRunReads(pre, d, rest);
  }

  // ---------------------------------------------------------------------
  // Photo URLs
  // ---------------------------------------------------------------------

  /** The high-resolution form: the first "/lowres/", then the first "/medres/", become "/highres/". */
  function HighRes(url: string): string
  {
    ReplaceFirst(ReplaceFirst(url, "/lowres/", "/highres/"), "/medres/", "/highres/")
  }

  /** strings.Replace with n = 1 either leaves the text alone or swaps one occurrence. */
  lemma {:induction false} ReplaceFirstLength(s: string, pat: string, rep: string)
    requires pat != []
    ensures |ReplaceFirst(s, pat, rep)| == |s| || |ReplaceFirst(s, pat, rep)| == |s| - |pat| + |rep|
    decreases |s|
  {
    if |s| >= |pat| && s[..|pat|] != pat {
      ReplaceFirstLength(s[1..], pat, rep);
    }
  }

  /** The first occurrence is the one replaced when nothing before it can start one. */
  lemma {:induction false} ReplaceFirstAt(a: string, pat: string, b: string, rep: string)
    requires pat != []
    requires forall i :: 0 <= i < |a| ==> a[i] != pat[0]
    ensures ReplaceFirst(a + pat + b, pat, rep) == a + rep + b
    decreases |a|
  {
    var s := a + pat + b;
    if a == [] {
      assert s[..|pat|] == pat;
      assert s[|pat|..] == b;
    } else {
      assert s[..|pat|][0] == a[0];
      assert s[1..] == a[1..] + pat + b;
      ReplaceFirstAt(a[1..], pat, b, rep);
      assert [a[0]] + (a[1..] + rep + b) == a + rep + b;
    }
  }

  /** A low-resolution URL whose host part has no '/' is really rewritten: the result is longer. */
  lemma HighResRewrites(a: string, b: string)
    requires '/' !in a
    ensures |HighRes(a + "/lowres/" + b)| > |a + "/lowres/" + b|
  {
    ReplaceFirstAt(a, "/lowres/", b, "/highres/");
    ReplaceFirstLength(a + "/highres/" + b, "/medres/", "/highres/");
  }

  /** Text that begins with `p` contains it. */
  lemma ContainsPrefix(p: string, rest: string)
    ensures Contains(p + rest, p)
  {
    assert (p + rest)[..|p|] == p;
  }

  /** Text that contains `sub` still contains it behind a prefix. */
  lemma ContainsBehind(x: string, s: string, sub: string)
    requires Contains(s, sub)
    ensures Contains(x + s, sub)
  {
    ContainsIff(s, sub);
    var i :| OccursAt(s, sub, i);
    assert (x + s)[|x| + i..|x| + i + |sub|] == s[i..i + |sub|];
    assert OccursAt(x + s, sub, |x| + i);
    ContainsIff(x + s, sub);
  }

  // ---------------------------------------------------------------------
  // extractDataFromHTML: rewrite, then drop repeats
  // ---------------------------------------------------------------------

  /** The photo list built from the page's URL matches: each rewritten, a repeat dropped. */
  function HTMLPhotos(matches: seq<string>): (r: seq<string>)
    ensures |r| <= |matches|
  {
    if matches == [] then []
    else
      var d := HTMLPhotos(matches[..|matches| - 1]);
      var u := HighRes(matches[|matches| - 1]);
      if u in d then d else d + [u]
  }

  /** The loop of extractDataFromHTML over the photo matches, with its photoSet. */
  method ExtractHTMLPhotos(matches: seq<string>) returns (photos: seq<string>)
    ensures photos == HTMLPhotos(matches)
  {
    var photoSet: set<string> := {};
    photos := [];
    var i := 0;
    while i < |matches|
      invariant 0 <= i <= |matches|
      invariant photos == HTMLPhotos(matches[..i])
      invariant forall u :: u in photoSet <==> u in photos
    {
      assert matches[..i + 1][..i] == matches[..i];
      var url := ReplaceFirst(matches[i], "/lowres/", "/highres/");
      url := ReplaceFirst(url, "/medres/", "/highres/");
      if url !in photoSet {
        photoSet := photoSet + {url};
        photos := photos + [url];
      }
      i := i + 1;
    }
    assert matches[..i] == matches;
  }

  /**
   * No URL appears twice, and the list holds exactly the rewritten matches:
   * each rewritten match is in it, and each entry is some rewritten match.
   */
  lemma {:induction false} HTMLPhotosSpec(matches: seq<string>)
    ensures forall i, j :: 0 <= i < j < |HTMLPhotos(matches)| ==> HTMLPhotos(matches)[i] != HTMLPhotos(matches)[j]
    ensures forall j :: 0 <= j < |matches| ==> HighRes(matches[j]) in HTMLPhotos(matches)
    ensures forall u :: u in HTMLPhotos(matches) ==> exists j :: 0 <= j < |matches| && HighRes(matches[j]) == u
  {
    if matches != [] {
      var init := matches[..|matches| - 1];
      HTMLPhotosSpec(init);
      forall j | 0 <= j < |init| ensures matches[j] == init[j] { }
    }
  }

  /** When no two matches rewrite alike, every rewritten match is kept, in page order. */
  lemma {:induction false} HTMLPhotosAllKept(matches: seq<string>)
    requires forall i, j :: 0 <= i < j < |matches| ==> HighRes(matches[i]) != HighRes(matches[j])
    ensures |HTMLPhotos(matches)| == |matches|
    ensures forall j :: 0 <= j < |matches| ==> HTMLPhotos(matches)[j] == HighRes(matches[j])
  {
    if matches != [] {
      var n := |matches| - 1;
      var init := matches[..n];
      HTMLPhotosAllKept(init);
      var d := HTMLPhotos(init);
      assert HighRes(matches[n]) !in d by {
        forall k | 0 <= k < |d|
          ensures d[k] != HighRes(matches[n])
        {
          assert d[k] == HighRes(matches[k]);
        }
      }
    }
  }

  // ---------------------------------------------------------------------
  // extractData: the seen-check on the URL before rewriting. Nothing in
  // workers/enrichment.go calls extractData (both fetch paths end in
  // extractDataFromHTML, lines 343 and 397), so the duplicate below is latent.
  // ---------------------------------------------------------------------

  /** An <img> element's src and data-src attributes. */
  datatype Img = Img(src: string, dataSrc: string)

  /** The URL taken from an image: data-src when it names realtor.ca, else src. */
  function Candidate(img: Img): string
  {
    if img.dataSrc != "" && Contains(img.dataSrc, "realtor.ca") then img.dataSrc else img.src
  }

  /** A candidate worth keeping: non-empty and on realtor.ca. */
  predicate OnRealtor(url: string)
  {
    url != "" && Contains(url, "realtor.ca")
  }

  /**
   * extractData's photo list as written, over the images of all selectors in
   * selector order: the seen-check looks up the URL before rewriting while
   * the set (and the list) receive it after rewriting.
   */
  function PagePhotosAsWritten(imgs: seq<Img>): (r: seq<string>)
    ensures |r| <= |imgs|
  {
    if imgs == [] then []
    else
      var d := PagePhotosAsWritten(imgs[..|imgs| - 1]);
      var u := Candidate(imgs[|imgs| - 1]);
      if OnRealtor(u) && u !in d then d + [HighRes(u)] else d
  }

  /** The loops of extractData over the photo selectors' images, as written. */
  method ExtractPagePhotosAsWritten(imgs: seq<Img>) returns (photos: seq<string>)
    ensures photos == PagePhotosAsWritten(imgs)
  {
    var photoSet: set<string> := {};
    photos := [];
    var i := 0;
    while i < |imgs|
      invariant 0 <= i <= |imgs|
      invariant photos == PagePhotosAsWritten(imgs[..i])
      invariant forall u :: u in photoSet <==> u in photos
    {
      assert imgs[..i + 1][..i] == imgs[..i];
      var url := imgs[i].src;
      if imgs[i].dataSrc != "" && Contains(imgs[i].dataSrc, "realtor.ca") {
        url := imgs[i].dataSrc;
      }
      if url != "" && Contains(url, "realtor.ca") && url !in photoSet {
        url := ReplaceFirst(url, "/lowres/", "/highres/");
        url := ReplaceFirst(url, "/medres/", "/highres/");
        photoSet := photoSet + {url};
        photos := photos + [url];
      }
      i := i + 1;
    }
    assert imgs[..i] == imgs;
  }

  /** Any URL the rewrite changes, seen twice, is kept twice. */
  lemma PagePhotosAsWrittenRepeats(lo: string)
    requires OnRealtor(lo) && HighRes(lo) != lo
    ensures PagePhotosAsWritten([Img(lo, ""), Img(lo, "")]) == [HighRes(lo), HighRes(lo)]
  {
    var imgs := [Img(lo, ""), Img(lo, "")];
    assert imgs[..1] == [Img(lo, "")];
    assert imgs[..1][..0] == [];
  }

  /** The same low-resolution photo shown twice ends up twice in the list. */
  lemma PagePhotosAsWrittenDuplicate()
    ensures var lo := "realtor.ca" + "/lowres/" + "1.jpg";
      var r := PagePhotosAsWritten([Img(lo, ""), Img(lo, "")]);
      |r| == 2 && r[0] == r[1]
  {
    var lo := "realtor.ca" + "/lowres/" + "1.jpg";
    ContainsPrefix("realtor.ca", "/lowres/" + "1.jpg");
    assert "realtor.ca" + ("/lowres/" + "1.jpg") == lo;
    HighResRewrites("realtor.ca", "1.jpg");
    PagePhotosAsWrittenRepeats(lo);
  }

  /** extractData as evidently intended: the seen-check looks up the rewritten URL, as the HTML path does. */
  function PagePhotos(imgs: seq<Img>): (r: seq<string>)
    ensures |r| <= |imgs|
  {
    if imgs == [] then []
    else
      var d := PagePhotos(imgs[..|imgs| - 1]);
      var u := Candidate(imgs[|imgs| - 1]);
      if OnRealtor(u) && HighRes(u) !in d then d + [HighRes(u)] else d
  }

  /** The corrected list has no repeats and keeps every realtor.ca candidate's rewritten URL. */
  lemma {:induction false} PagePhotosSpec(imgs: seq<Img>)
    ensures forall i, j :: 0 <= i < j < |PagePhotos(imgs)| ==> PagePhotos(imgs)[i] != PagePhotos(imgs)[j]
    ensures forall j :: 0 <= j < |imgs| && OnRealtor(Candidate(imgs[j])) ==> HighRes(Candidate(imgs[j])) in PagePhotos(imgs)
  {
    if imgs != [] {
      var init := imgs[..|imgs| - 1];
      PagePhotosSpec(init);
      forall j | 0 <= j < |init| ensures imgs[j] == init[j] { }
    }
  }

  /** Where the rewrite changes no candidate, the code as written and the corrected list agree. */
  lemma {:induction false} PagePhotosAgree(imgs: seq<Img>)
    requires forall j :: 0 <= j < |imgs| ==> HighRes(Candidate(imgs[j])) == Candidate(imgs[j])
    ensures PagePhotosAsWritten(imgs) == PagePhotos(imgs)
  {
    if imgs != [] {
      PagePhotosAgree(imgs[..|imgs| - 1]);
    }
  }

  // ---------------------------------------------------------------------
  // Enrich
  // ---------------------------------------------------------------------

  /** The fields of EnrichedData that UpdateListing writes; `features` is the marshalled JSON of the details. */
  datatype EnrichedData = EnrichedData(photos: seq<string>, description: string, stories: int, yearBuilt: int, features: string)

  /**
   * Enrich: with a ScrapingBee key its outcome is final (a failure comes back
   * wrapped and Playwright is not tried); without a key, the Playwright outcome.
   */
  function Enrich(beeKey: string, bee: Result<EnrichedData>, playwright: Result<EnrichedData>): (r: Result<EnrichedData>)
    ensures beeKey != "" ==> (r.Ok? <==> bee.Ok?)
    ensures beeKey != "" && bee.Ok? ==> r == bee
    ensures beeKey != "" && bee.Err? ==> r.msg == "scrapingbee: " + bee.msg
    ensures beeKey == "" ==> r == playwright
  {
    if beeKey != "" then
      if bee.Ok? then bee else Err("scrapingbee: " + bee.msg)
    else playwright
  }

  /** An error processBatch counts as blocked rather than failed. */
  predicate IsBlocked(msg: string)
  {
    Contains(msg, "Incapsula") || Contains(msg, "blocked")
  }

  /** A ScrapingBee error that says it was blocked is still counted as blocked once wrapped. */
  lemma BlockedThroughWrap(beeKey: string, bee: Result<EnrichedData>, playwright: Result<EnrichedData>)
    requires beeKey != "" && bee.Err? && IsBlocked(bee.msg)
    ensures Enrich(beeKey, bee, playwright).Err? && IsBlocked(Enrich(beeKey, bee, playwright).msg)
  {
    if Contains(bee.msg, "Incapsula") {
      ContainsBehind("scrapingbee: ", bee.msg, "Incapsula");
    } else {
      ContainsBehind("scrapingbee: ", bee.msg, "blocked");
    }
  }

  // ---------------------------------------------------------------------
  // Listing rows and the per-listing outcome
  // ---------------------------------------------------------------------

  const MaxAttempts := 3

  /** The columns of a listings row the worker reads or writes. */
  datatype ListingRow = ListingRow(
    status: string,
    url: Option<string>,
    enrichedAt: Option<int>,
    attempts: int,
    createdAt: int,
    description: string,
    stories: int,
    features: string,
    propertyId: Uuid,
    updatedAt: int)

  /** The selection's WHERE clause: active, not enriched, with a URL, fewer than three attempts. */
  predicate Pending(row: ListingRow)
  {
    row.status == StatusActive && row.enrichedAt.None? && row.url.Some? && row.attempts < MaxAttempts
  }

  function UrlOf(row: ListingRow): string
  {
    if row.url.Some? then row.url.value else ""
  }

  /**
   * UpdateListing's UPDATE of the listing: an empty description or a zero
   * story count keeps the stored one, and the row is marked enriched now, so
   * it is no longer pending.
   */
  function Merged(row: ListingRow, data: EnrichedData, now: int): (m: ListingRow)
    ensures m.description == "" <==> row.description == "" && data.description == ""
    ensures data.description != "" ==> m.description == data.description
    ensures m.stories == 0 <==> row.stories == 0 && data.stories == 0
    ensures data.stories != 0 ==> m.stories == data.stories
    ensures m.features == data.features && m.enrichedAt == Some(now) && m.updatedAt == now && !Pending(m)
    ensures m.attempts == row.attempts && m.status == row.status && m.url == row.url
    ensures m.createdAt == row.createdAt && m.propertyId == row.propertyId
  {
    row.(features := data.features,
         description := if data.description == "" then row.description else data.description,
         stories := if data.stories == 0 then row.stories else data.stories,
         enrichedAt := Some(now),
         updatedAt := now)
  }

  /** The row after its listing is handled: a failed fetch adds an attempt; a failed UPDATE changes nothing. */
  function RowAfter(row: ListingRow, fetched: Result<EnrichedData>, updateFails: bool, now: int): ListingRow
  {
    if fetched.Err? then row.(attempts := row.attempts + 1, updatedAt := now)
    else if updateFails then row
    else Merged(row, fetched.value, now)
  }

  /**
   * The attempt rule: only a failed fetch counts an attempt, the count never
   * passes three, and a handled row stays pending exactly when its fetch failed
   * with attempts to spare or its UPDATE failed.
   */
  lemma AttemptRule(row: ListingRow, fetched: Result<EnrichedData>, updateFails: bool, now: int)
    requires Pending(row) && row.attempts >= 0
    ensures var r := RowAfter(row, fetched, updateFails, now);
      r.attempts == row.attempts + (if fetched.Err? then 1 else 0)
      && 0 <= r.attempts <= MaxAttempts
      && (Pending(r) <==> (fetched.Err? && row.attempts + 1 < MaxAttempts) || (fetched.Ok? && updateFails))
  {
  }

  /** How processBatch counts a handled listing. */
  datatype Verdict = Enriched | Blocked | Failed

  function VerdictOf(fetched: Result<EnrichedData>, updateFails: bool): (v: Verdict)
    ensures v == Enriched <==> fetched.Ok? && !updateFails
    ensures v == Blocked <==> fetched.Err? && IsBlocked(fetched.msg)
  {
    if fetched.Err? then (if IsBlocked(fetched.msg) then Blocked else Failed)
    else if updateFails then Failed
    else Enriched
  }

  /**
   * UpdateListing's property update: a positive year is written only into a
   * property whose year is still unknown (COALESCE keeps a stored year).
   */
  function YearStep(years: map<Uuid, Option<int>>, pid: Uuid, fetched: Result<EnrichedData>, updateFails: bool): (r: map<Uuid, Option<int>>)
    ensures r.Keys == years.Keys
  {
    if fetched.Ok? && !updateFails && fetched.value.yearBuilt > 0 && pid in years && years[pid].None?
    then years[pid := Some(fetched.value.yearBuilt)]
    else years
  }

  // ---------------------------------------------------------------------
  // The batch, as functions of the rows before it
  // ---------------------------------------------------------------------

  /** Everything outside the database a batch depends on: the fetch outcomes, the failing UPDATEs, the clock. */
  datatype Env = Env(
    beeKey: string,
    bee: string -> Result<EnrichedData>,
    playwright: string -> Result<EnrichedData>,
    queryFails: bool,
    updateFails: set<Uuid>,
    now: int)

  function Fetched(env: Env, row: ListingRow): Result<EnrichedData>
  {
    Enrich(env.beeKey, env.bee(UrlOf(row)), env.playwright(UrlOf(row)))
  }

  function Handled(env: Env, id: Uuid, row: ListingRow): ListingRow
  {
    RowAfter(row, Fetched(env, row), id in env.updateFails, env.now)
  }

  function VerdictFor(env: Env, id: Uuid, row: ListingRow): Verdict
  {
    VerdictOf(Fetched(env, row), id in env.updateFails)
  }

  /** The "giving up" warning: the fetch failed on the last allowed attempt. */
  predicate GivesUp(env: Env, row: ListingRow)
  {
    Fetched(env, row).Err? && row.attempts + 1 >= MaxAttempts
  }

  predicate AllIn(ids: seq<Uuid>, rows: map<Uuid, ListingRow>)
  {
    forall j :: 0 <= j < |ids| ==> ids[j] in rows
  }

  /** How many of the listings get verdict v. */
  function Tally(env: Env, rows0: map<Uuid, ListingRow>, ids: seq<Uuid>, v: Verdict): (n: nat)
    requires AllIn(ids, rows0)
    ensures n <= |ids|
  {
    if ids == [] then 0
    else
      var k := ids[|ids| - 1];
      Tally(env, rows0, ids[..|ids| - 1], v) + (if VerdictFor(env, k, rows0[k]) == v then 1 else 0)
  }

  /** The listings the worker gives up on, in processing order. */
  function GaveUpIds(env: Env, rows0: map<Uuid, ListingRow>, ids: seq<Uuid>): (r: seq<Uuid>)
    requires AllIn(ids, rows0)
    ensures |r| <= |ids|
  {
    if ids == [] then []
    else
      var k := ids[|ids| - 1];
      GaveUpIds(env, rows0, ids[..|ids| - 1]) + (if GivesUp(env, rows0[k]) then [k] else [])
  }

  /** The property years after the listings are handled in order. */
  function YearsAfter(env: Env, rows0: map<Uuid, ListingRow>, ids: seq<Uuid>, years: map<Uuid, Option<int>>): (r: map<Uuid, Option<int>>)
    requires AllIn(ids, rows0)
    ensures r.Keys == years.Keys
  {
    if ids == [] then years
    else
      var k := ids[|ids| - 1];
      YearStep(YearsAfter(env, rows0, ids[..|ids| - 1], years), rows0[k].propertyId, Fetched(env, rows0[k]), k in env.updateFails)
  }

  /** Every handled listing is counted exactly once: enriched, blocked or failed. */
  lemma {:induction false} TallyTotal(env: Env, rows0: map<Uuid, ListingRow>, ids: seq<Uuid>)
    requires AllIn(ids, rows0)
    ensures Tally(env, rows0, ids, Enriched) + Tally(env, rows0, ids, Blocked) + Tally(env, rows0, ids, Failed) == |ids|
  {
    if ids != [] {
      TallyTotal(env, rows0, ids[..|ids| - 1]);
    }
  }

  /** A listing given up on had its fetch fail and is never selected again. */
  lemma {:induction false} GaveUpFinal(env: Env, rows0: map<Uuid, ListingRow>, ids: seq<Uuid>)
    requires AllIn(ids, rows0)
    ensures forall j :: 0 <= j < |GaveUpIds(env, rows0, ids)| ==>
      var k := GaveUpIds(env, rows0, ids)[j];
      k in ids && Fetched(env, rows0[k]).Err? && !Pending(Handled(env, k, rows0[k]))
  {
    if ids != [] {
      var n := |ids| - 1;
      GaveUpFinal(env, rows0, ids[..n]);
      forall j | 0 <= j < n ensures ids[..n][j] in ids {
        assert ids[..n][j] == ids[j];
      }
    }
  }

  /** A year already stored is never overwritten, and only positive years are written. */
  lemma {:induction false} YearsAfterKeeps(env: Env, rows0: map<Uuid, ListingRow>, ids: seq<Uuid>, years: map<Uuid, Option<int>>)
    requires AllIn(ids, rows0)
    ensures forall p :: p in years && years[p].Some? ==> YearsAfter(env, rows0, ids, years)[p] == years[p]
    ensures forall p :: p in years && YearsAfter(env, rows0, ids, years)[p].Some? ==>
      years[p].Some? || YearsAfter(env, rows0, ids, years)[p].value > 0
  {
    if ids != [] {
      YearsAfterKeeps(env, rows0, ids[..|ids| - 1], years);
    }
  }

  /** The first i listings of ids are handled: their rows are the handled ones, the others as before. */
  ghost predicate HandledUpTo(env: Env, rows0: map<Uuid, ListingRow>, ids: seq<Uuid>, i: nat, rows: map<Uuid, ListingRow>)
    requires i <= |ids|
  {
    rows.Keys == rows0.Keys
    && forall k :: k in rows0 ==> rows[k] == if k in ids[..i] then Handled(env, k, rows0[k]) else rows0[k]
  }

  /** Handling the next listing of a repeat-free selection extends the handled prefix by one. */
  lemma HandledStep(env: Env, rows0: map<Uuid, ListingRow>, ids: seq<Uuid>, i: nat, rows: map<Uuid, ListingRow>)
    requires i < |ids| && AllIn(ids, rows0)
    requires forall a, b :: 0 <= a < b < |ids| ==> ids[a] != ids[b]
    requires HandledUpTo(env, rows0, ids, i, rows)
    ensures ids[i] in rows && rows[ids[i]] == rows0[ids[i]]
    ensures HandledUpTo(env, rows0, ids, i + 1, rows[ids[i] := Handled(env, ids[i], rows0[ids[i]])])
  {
    assert ids[..i + 1] == ids[..i] + [ids[i]];
    assert ids[i] !in ids[..i];
  }

  /** The batch functions on a prefix one listing longer. */
  lemma PrefixStep(env: Env, rows0: map<Uuid, ListingRow>, ids: seq<Uuid>, i: nat, years0: map<Uuid, Option<int>>)
    requires i < |ids| && AllIn(ids, rows0)
    ensures AllIn(ids[..i], rows0) && AllIn(ids[..i + 1], rows0)
    ensures var k := ids[i];
      forall v :: Tally(env, rows0, ids[..i + 1], v) ==
        Tally(env, rows0, ids[..i], v) + (if VerdictFor(env, k, rows0[k]) == v then 1 else 0)
    ensures var k := ids[i];
      GaveUpIds(env, rows0, ids[..i + 1]) ==
        GaveUpIds(env, rows0, ids[..i]) + (if GivesUp(env, rows0[k]) then [k] else [])
    ensures var k := ids[i];
      YearsAfter(env, rows0, ids[..i + 1], years0) ==
        YearStep(YearsAfter(env, rows0, ids[..i], years0), rows0[k].propertyId, Fetched(env, rows0[k]), k in env.updateFails)
  {
    assert ids[..i + 1][..i] == ids[..i];
  }

  /** Where processBatch's loop stands after the first i listings of ids. */
  ghost predicate BatchState(env: Env, rows0: map<Uuid, ListingRow>, years0: map<Uuid, Option<int>>, ids: seq<Uuid>, i: nat,
                             rows: map<Uuid, ListingRow>, years: map<Uuid, Option<int>>,
                             enriched: nat, blocked: nat, failed: nat, gaveUp: seq<Uuid>)
    requires i <= |ids| && AllIn(ids, rows0)
  {
    AllIn(ids[..i], rows0)
    && HandledUpTo(env, rows0, ids, i, rows)
    && years == YearsAfter(env, rows0, ids[..i], years0)
    && enriched == Tally(env, rows0, ids[..i], Enriched)
    && blocked == Tally(env, rows0, ids[..i], Blocked)
    && failed == Tally(env, rows0, ids[..i], Failed)
    && gaveUp == GaveUpIds(env, rows0, ids[..i])
    && forall k :: k in rows ==> 0 <= rows[k].attempts <= MaxAttempts
  }

  /** One turn of the loop moves the state from i to i + 1. */
  lemma BatchStep(env: Env, rows0: map<Uuid, ListingRow>, years0: map<Uuid, Option<int>>, ids: seq<Uuid>, i: nat,
                  rows: map<Uuid, ListingRow>, years: map<Uuid, Option<int>>,
                  enriched: nat, blocked: nat, failed: nat, gaveUp: seq<Uuid>,
                  rows': map<Uuid, ListingRow>, years': map<Uuid, Option<int>>,
                  enriched': nat, blocked': nat, failed': nat, gaveUp': seq<Uuid>)
    requires i < |ids| && AllIn(ids, rows0)
    requires forall j :: 0 <= j < |ids| ==> Pending(rows0[ids[j]])
    requires forall a, b :: 0 <= a < b < |ids| ==> ids[a] != ids[b]
    requires forall k :: k in rows0 ==> 0 <= rows0[k].attempts
    requires BatchState(env, rows0, years0, ids, i, rows, years, enriched, blocked, failed, gaveUp)
    requires var k := ids[i];
      k in rows && rows' == rows[k := Handled(env, k, rows[k])]
      && years' == YearStep(years, rows[k].propertyId, Fetched(env, rows[k]), k in env.updateFails)
    requires var k := ids[i];
      k in rows &&
      var v := VerdictFor(env, k, rows[k]);
      enriched' == enriched + (if v == Enriched then 1 else 0)
      && blocked' == blocked + (if v == Blocked then 1 else 0)
      && failed' == failed + (if v == Failed then 1 else 0)
      && gaveUp' == gaveUp + (if GivesUp(env, rows[k]) then [k] else [])
    ensures BatchState(env, rows0, years0, ids, i + 1, rows', years', enriched', blocked', failed', gaveUp')
  {
    var k := ids[i];
    HandledStep(env, rows0, ids, i, rows);
    PrefixStep(env, rows0, ids, i, years0);
    AttemptRule(rows0[k], Fetched(env, rows0[k]), k in env.updateFails, env.now);
  }

  // ---------------------------------------------------------------------
  // The worker
  // ---------------------------------------------------------------------

  /** The pending listings. */
  function PendingIds(rows: map<Uuid, ListingRow>): set<Uuid>
  {
    set k | k in rows && Pending(rows[k])
  }

  class EnrichmentWorker {
    const scrapingBeeKey: string
    const trigger: TriggerSlot
    /** The listings table and the year_built column of the properties table. */
    var rows: map<Uuid, ListingRow>
    var years: map<Uuid, Option<int>>

    /** No listing has a negative attempt count or more than three. */
    predicate Valid()
      reads this
    {
      forall k :: k in rows ==> 0 <= rows[k].attempts <= MaxAttempts
    }

    constructor (scrapingBeeKey: string, rows: map<Uuid, ListingRow>, years: map<Uuid, Option<int>>)
      ensures this.scrapingBeeKey == scrapingBeeKey && this.rows == rows && this.years == years
      ensures fresh(trigger) && !trigger.pending
    {
      this.scrapingBeeKey := scrapingBeeKey;
      this.rows := rows;
      this.years := years;
      trigger := new TriggerSlot();
    }

    /** Trigger: a second trigger while one is pending is dropped. */
    method Trigger() returns (sent: bool)
      modifies trigger
      ensures trigger.pending
      ensures sent <==> !old(trigger.pending)
    {
      sent := trigger.Trigger();
    }

    /**
     * The selection query: pending listings only, oldest first, at most
     * batchSize of them, and none left out that is older than one taken.
     */
    method Select(batchSize: nat) returns (ids: seq<Uuid>)
      ensures |ids| == if batchSize < |PendingIds(rows)| then batchSize else |PendingIds(rows)|
      ensures forall j :: 0 <= j < |ids| ==> ids[j] in rows && Pending(rows[ids[j]])
      ensures forall i, j :: 0 <= i < j < |ids| ==> ids[i] != ids[j]
      ensures forall i, j :: 0 <= i < j < |ids| ==> rows[ids[i]].createdAt <= rows[ids[j]].createdAt
      ensures forall k, j :: k in PendingIds(rows) && k !in ids && 0 <= j < |ids| ==>
        rows[ids[j]].createdAt <= rows[k].createdAt
    {
      var rs := rows;
      ids := TakeOldest(PendingIds(rs), k => if k in rs then rs[k].createdAt else 0, batchSize);
    }

    /** UpdateListing: the listing UPDATE, then the property's year when the page gave one. */
    method UpdateListing(id: Uuid, data: EnrichedData, fails: bool, now: int) returns (ok: bool)
      requires id in rows
      modifies this
      ensures ok == !fails
      ensures rows == if fails then old(rows) else old(rows)[id := Merged(old(rows)[id], data, now)]
      ensures years == YearStep(old(years), old(rows)[id].propertyId, Ok(data), fails)
    {
      if fails {
        return false;
      }
      var row := rows[id];
      rows := rows[id := Merged(row, data, now)];
      if data.yearBuilt > 0 && row.propertyId in years && years[row.propertyId].None? {
        years := years[row.propertyId := Some(data.yearBuilt)];
      }
      return true;
    }

    /** One iteration of processBatch's loop. */
    method Handle(id: Uuid, env: Env) returns (v: Verdict, gaveUp: bool)
      requires id in rows && env.beeKey == scrapingBeeKey
      modifies this
      ensures rows == old(rows)[id := Handled(env, id, old(rows)[id])]
      ensures years == YearStep(old(years), old(rows)[id].propertyId, Fetched(env, old(rows)[id]), id in env.updateFails)
      ensures v == VerdictFor(env, id, old(rows)[id])
      ensures gaveUp == GivesUp(env, old(rows)[id])
    {
      var row := rows[id];
      var url := UrlOf(row);
      var data := Enrich(scrapingBeeKey, env.bee(url), env.playwright(url));
      if data.Err? {
        rows := rows[id := row.(attempts := row.attempts + 1, updatedAt := env.now)];
        if Contains(data.msg, "Incapsula") || Contains(data.msg, "blocked") {
          v := Blocked;
        } else {
          v := Failed;
        }
        gaveUp := row.attempts + 1 >= MaxAttempts;
        return;
      }
      gaveUp := false;
      var ok := UpdateListing(id, data.value, id in env.updateFails, env.now);
      if !ok {
        v := Failed;
      } else {
        v := Enriched;
      }
    }

    /**
     * processBatch: select, then handle each selected listing in order. The
     * new rows and years and the three counters are those the functions
     * above give for the selection.
     */
    method ProcessBatch(batchSize: nat, env: Env) returns (selected: seq<Uuid>, enriched: nat, blocked: nat, failed: nat, gaveUp: seq<Uuid>)
      requires Valid() && env.beeKey == scrapingBeeKey
      modifies this
      ensures Valid()
      ensures env.queryFails ==> selected == [] && rows == old(rows) && years == old(years)
      ensures !env.queryFails ==> |selected| == if batchSize < |PendingIds(old(rows))| then batchSize else |PendingIds(old(rows))|
      ensures forall j :: 0 <= j < |selected| ==> selected[j] in old(rows) && Pending(old(rows)[selected[j]])
      ensures forall i, j :: 0 <= i < j < |selected| ==> selected[i] != selected[j]
      ensures forall i, j :: 0 <= i < j < |selected| ==> old(rows)[selected[i]].createdAt <= old(rows)[selected[j]].createdAt
      ensures rows.Keys == old(rows).Keys
      ensures forall k :: k in old(rows) ==>
        rows[k] == if k in selected then Handled(env, k, old(rows)[k]) else old(rows)[k]
      ensures AllIn(selected, old(rows))
      ensures years == YearsAfter(env, old(rows), selected, old(years))
      ensures enriched == Tally(env, old(rows), selected, Enriched)
      ensures blocked == Tally(env, old(rows), selected, Blocked)
      ensures failed == Tally(env, old(rows), selected, Failed)
      ensures gaveUp == GaveUpIds(env, old(rows), selected)
    {
      if env.queryFails {
        return [], 0, 0, 0, [];
      }
      selected := Select(batchSize);
      enriched, blocked, failed, gaveUp := HandleAll(selected, env);
      assert selected[..|selected|] == selected;
    }

    /** One turn of processBatch's loop: listing i handled and counted. */
    method HandleAt(ids: seq<Uuid>, i: nat, env: Env, ghost rows0: map<Uuid, ListingRow>, ghost years0: map<Uuid, Option<int>>,
                    enriched: nat, blocked: nat, failed: nat, gaveUp: seq<Uuid>)
      returns (enriched': nat, blocked': nat, failed': nat, gaveUp': seq<Uuid>)
      requires i < |ids| && AllIn(ids, rows0) && env.beeKey == scrapingBeeKey
      requires forall j :: 0 <= j < |ids| ==> Pending(rows0[ids[j]])
      requires forall a, b :: 0 <= a < b < |ids| ==> ids[a] != ids[b]
      requires forall k :: k in rows0 ==> 0 <= rows0[k].attempts
      requires BatchState(env, rows0, years0, ids, i, rows, years, enriched, blocked, failed, gaveUp)
      modifies this
      ensures BatchState(env, rows0, years0, ids, i + 1, rows, years, enriched', blocked', failed', gaveUp')
    {
      var id := ids[i];
      enriched', blocked', failed', gaveUp' := enriched, blocked, failed, gaveUp;
      var v, gave := Handle(id, env);
      if v == Enriched {
        enriched' := enriched + 1;
      } else if v == Blocked {
        blocked' := blocked + 1;
      } else {
        failed' := failed + 1;
      }
      if gave {
        gaveUp' := gaveUp + [id];
      }
      BatchStep(env, rows0, years0, ids, i, old(rows), old(years), enriched, blocked, failed, gaveUp,
                rows, years, enriched', blocked', failed', gaveUp');
    }

    /** The loop of processBatch over the selected listings. */
    method HandleAll(ids: seq<Uuid>, env: Env) returns (enriched: nat, blocked: nat, failed: nat, gaveUp: seq<Uuid>)
      requires Valid() && env.beeKey == scrapingBeeKey
      requires AllIn(ids, rows) && forall j :: 0 <= j < |ids| ==> Pending(rows[ids[j]])
      requires forall a, b :: 0 <= a < b < |ids| ==> ids[a] != ids[b]
      modifies this
      ensures Valid()
      ensures HandledUpTo(env, old(rows), ids, |ids|, rows)
      ensures years == YearsAfter(env, old(rows), ids, old(years))
      ensures enriched == Tally(env, old(rows), ids, Enriched)
      ensures blocked == Tally(env, old(rows), ids, Blocked)
      ensures failed == Tally(env, old(rows), ids, Failed)
      ensures gaveUp == GaveUpIds(env, old(rows), ids)
    {
      enriched, blocked, failed, gaveUp := 0, 0, 0, [];
      ghost var rows0 := rows;
      ghost var years0 := years;
      var i := 0;
      while i < |ids|
        invariant 0 <= i <= |ids|
        invariant BatchState(env, rows0, years0, ids, i, rows, years, enriched, blocked, failed, gaveUp)
      {
        enriched, blocked, failed, gaveUp := HandleAt(ids, i, env, rows0, years0, enriched, blocked, failed, gaveUp);
        i := i + 1;
      }
      assert ids[..i] == ids;
    }
  }
}
