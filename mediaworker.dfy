/**
 * The media worker (workers/media.go): it downloads a pending item, hashes
 * it, derives its storage key from the category, province and city, skips
 * the upload when a row already holds that key, and records the outcome
 * on the row.
 *
 * The download is an input (the response for each URL), SHA-256 is a
 * function parameter, and the S3 bucket is a small class that counts
 * uploads.
 */
module MediaWorker {
  import opened Util
  import opened Models
  import opened Postgres
  import opened Identity
  import opened MediaService
  import opened Signal

  // ---------------------------------------------------------------------
  // File extensions
  // ---------------------------------------------------------------------

  /**
   * path.Ext: the suffix from the final '.' of the final '/'-separated
   * element, or "" when that element has no '.'.
   */
  function PathExt(s: string): string
    decreases |s|
  {
    if s == [] || s[|s| - 1] == '/' then []
    else if s[|s| - 1] == '.' then "."
    else
      var e := PathExt(s[..|s| - 1]);
      if e == [] then [] else e + [s[|s| - 1]]
  }

  /** The extension is a suffix of the path that starts with its only dot and holds no '/'. */
  lemma {:induction false} PathExtShape(s: string)
    ensures var r := PathExt(s);
      (r == [] || (r[0] == '.' && HasSuffix(s, r)))
      && (forall i :: 0 <= i < |r| ==> r[i] != '/')
      && (forall i :: 1 <= i < |r| ==> r[i] != '.')
    decreases |s|
  {
    if s != [] && s[|s| - 1] != '/' && s[|s| - 1] != '.' {
      var init := s[..|s| - 1];
      PathExtShape(init);
      var e := PathExt(init);
      if e != [] {
        assert s[|s| - |e| - 1..] == init[|init| - |e|..] + [s[|s| - 1]];
      }
    }
  }

  /** A path without an extension has every dot in a directory name. */
  lemma {:induction false} PathExtNone(s: string)
    requires PathExt(s) == []
    ensures forall i :: 0 <= i < |s| && s[i] == '.' ==> exists j :: i < j < |s| && s[j] == '/'
    decreases |s|
  {
    if s != [] && s[|s| - 1] == '/' {
      forall i | 0 <= i < |s| && s[i] == '.'
        ensures exists j :: i < j < |s| && s[j] == '/'
      {
        assert s[|s| - 1] == '/';
      }
    } else if s != [] {
      var init := s[..|s| - 1];
      PathExtNone(init);
      forall i | 0 <= i < |s| && s[i] == '.'
        ensures exists j :: i < j < |s| && s[j] == '/'
      {
        assert init[i] == '.';
        var j :| i < j < |init| && init[j] == '/';
        assert s[j] == '/';
      }
    }
  }

  /** Extending the last element by a character other than '/' and '.' extends its extension, if any. */
  lemma PathExtStep(s: string, c: char)
    requires c != '/' && c != '.'
    ensures PathExt(s + [c]) == if PathExt(s) == [] then [] else PathExt(s) + [c]
  {
    assert (s + [c])[..|s|] == s;
  }

  const ImageExts: seq<string> := [".jpg", ".jpeg", ".png", ".gif", ".webp", ".bmp", ".tiff"]

  predicate IsImageExt(ext: string)
  {
    ext in ImageExts
  }

  /** The extension a Content-Type header maps to; .jpg for anything unlisted. */
  function ContentTypeExt(contentType: string): (r: string)
    ensures IsImageExt(r)
  {
    if contentType == "image/jpeg" || contentType == "image/jpg" then ".jpg"
    else if contentType == "image/png" then ".png"
    else if contentType == "image/gif" then ".gif"
    else if contentType == "image/webp" then ".webp"
    else ".jpg"
  }

  /**
   * guessExtension: the URL's own extension, lowercased, when it is an
   * image extension; else the one the content type names.
   */
  function GuessExtension(url: string, contentType: string): (r: string)
    ensures IsImageExt(r)
    ensures IsImageExt(ToLower(PathExt(url))) ==> r == ToLower(PathExt(url))
    ensures !IsImageExt(ToLower(PathExt(url))) ==> r == ContentTypeExt(contentType)
  {
    var ext := ToLower(PathExt(url));
    if ext != "" && IsImageExt(ext) then ext else ContentTypeExt(contentType)
  }

  /** A final element ending in `t`, a dot and then neither dots nor slashes, has extension `t`. */
  lemma {:induction false} PathExtOfSuffix(s: string, t: string)
    requires t != [] && t[0] == '.'
    requires forall i :: 1 <= i < |t| ==> t[i] != '/' && t[i] != '.'
    ensures PathExt(s + t) == t
    decreases |t|
  {
    if |t| > 1 {
      var init := t[..|t| - 1];
      PathExtOfSuffix(s, init);
      PathExtStep(s + init, t[|t| - 1]);
      SnocOfInit(s, t);
    }
  }

  /** `s + t` is `s` followed by all of `t` but its last character, then that character. */
  lemma SnocOfInit(s: string, t: string)
    requires t != []
    ensures s + t[..|t| - 1] + [t[|t| - 1]] == s + t
  {
    assert t[..|t| - 1] + [t[|t| - 1]] == t;
  }

  /** A final element without dots has no extension, whatever the directories are called. */
  lemma {:induction false} PathExtOfPlainName(s: string, name: string)
    requires forall i :: 0 <= i < |name| ==> name[i] != '/' && name[i] != '.'
    ensures PathExt(s + "/" + name) == ""
    decreases |name|
  {
    if name != [] {
      var init := name[..|name| - 1];
      PathExtOfPlainName(s, init);
      PathExtStep(s + "/" + init, name[|name| - 1]);
      assert s + "/" + init + [name[|name| - 1]] == s + "/" + name;
    }
  }

  /** The URL's extension wins over the header, in any letter case. */
  lemma GuessExtensionFromUrl(base: string)
    ensures GuessExtension(base + ".JPG", "image/png") == ".jpg"
  {
    PathExtOfSuffix(base, ".JPG");
    assert ToLower(".JPG") == ".jpg";
  }

  /** A query string hides the URL's extension, so the header decides. */
  lemma GuessExtensionBehindQuery(base: string)
    ensures GuessExtension(base + ".jpg?w=2", "image/png") == ".png"
  {
    PathExtOfSuffix(base, ".jpg?w=2");
    assert |ToLower(".jpg?w=2")| == 8;
  }

  /** A dot in a directory name is no extension; an unlisted header gives .jpg. */
  lemma GuessExtensionDefaults(dir: string, name: string)
    requires forall i :: 0 <= i < |name| ==> name[i] != '/' && name[i] != '.'
    ensures GuessExtension(dir + "/" + name, "image/webp") == ".webp"
    ensures GuessExtension(dir + "/" + name, "image/svg+xml") == ".jpg"
  {
    PathExtOfPlainName(dir, name);
  }

  // ---------------------------------------------------------------------
  // Path segments
  // ---------------------------------------------------------------------

  predicate PathSafe(s: string)
  {
    forall i :: 0 <= i < |s| ==> !IsUpper(s[i]) && s[i] != ' ' && s[i] != '\'' && s[i] != '.'
  }

  /** sanitizePath: lowercase, spaces to '_', apostrophes and dots deleted. */
  function SanitizePath(s: string): (r: string)
    ensures PathSafe(r)
  {
    var lower := ToLower(s);
    var a := ReplaceAll(lower, " ", "_");
    var b := ReplaceAll(a, "'", "");
    var c := ReplaceAll(b, ".", "");
    ReplaceAllKeeps(lower, " ", "_", ch => !IsUpper(ch));
    ReplaceAllRemoves(lower, ' ', "_");
    ReplaceAllKeeps(a, "'", "", ch => !IsUpper(ch) && ch != ' ');
    ReplaceAllRemoves(a, '\'', "");
    ReplaceAllKeeps(b, ".", "", ch => !IsUpper(ch) && ch != ' ' && ch != '\'');
    ReplaceAllRemoves(b, '.', "");
    c
  }

  /** A path-safe segment is left as it is, so sanitizing twice changes nothing. */
  lemma SanitizePathOfSafe(s: string)
    requires PathSafe(s)
    ensures SanitizePath(s) == s
  {
    ToLowerOfLower(s);
    ReplaceAllAbsent(s, ' ', "_");
    ReplaceAllAbsent(s, '\'', "");
    ReplaceAllAbsent(s, '.', "");
  }

  lemma SanitizePathIdempotent(s: string)
    ensures SanitizePath(SanitizePath(s)) == SanitizePath(s)
  {
    SanitizePathOfSafe(SanitizePath(s));
  }

  /**
   * safeProvince and safeCity (the same function): "unknown" for an empty
   * value, else the sanitized value.
   */
  function SafeSegment(s: string): (r: string)
    ensures s == "" ==> r == "unknown"
    ensures s != "" ==> r == SanitizePath(s)
    ensures PathSafe(r)
  {
    if s == "" then "unknown" else SanitizePath(s)
  }

  /** Applying safeProvince twice changes nothing, unless sanitizing emptied the value (below). */
  lemma SafeSegmentIdempotent(s: string)
    requires s == "" || SanitizePath(s) != ""
    ensures SafeSegment(SafeSegment(s)) == SafeSegment(s)
  {
    if s == "" {
      SanitizePathOfSafe("unknown");
    } else {
      SanitizePathIdempotent(s);
    }
  }

  /** The empty check comes before sanitizing: a value of dots and apostrophes gives an empty segment. */
  lemma SafeSegmentCanBeEmpty()
    ensures SafeSegment("'.") == ""
  {
    assert ToLower("'.") == "'.";
    assert ReplaceAll("'.", " ", "_") == "'.";
    assert ReplaceAll("'.", "'", "") == ".";
    assert ReplaceAll(".", ".", "") == "";
  }

  // ---------------------------------------------------------------------
  // Storage keys
  // ---------------------------------------------------------------------

  /** Categories whose keys carry the province and city. */
  predicate Located(category: string)
  {
    category == CategoryListing || category == CategoryProperty || category == CategoryRecord
    || category == CategoryAssessment || category == CategoryIntel
  }

  predicate KnownCategory(category: string)
  {
    Located(category) || category == CategoryAgent || category == CategoryBrokerage
  }

  /** The folder a located category's keys start with. */
  function KeyRoot(category: string): string
  {
    if category == CategoryListing then "listings/" else "properties/"
  }

  /** The sub-folder below province and city. */
  function KeyLeaf(category: string): string
  {
    if category == CategoryRecord then "records/"
    else if category == CategoryAssessment then "assessments/"
    else if category == CategoryIntel then "intel/"
    else ""
  }

  /**
   * The folder generateS3Key files an object under. An unknown category
   * uses the first two characters of the hash, which the source slices
   * without a check.
   */
  function KeyFolder(m: Media, contentHash: string): string
    requires KnownCategory(m.category) || |contentHash| >= 2
  {
    if Located(m.category) then
      KeyRoot(m.category) + SafeSegment(m.province) + "/" + SafeSegment(m.city) + "/" + KeyLeaf(m.category)
    else if m.category == CategoryAgent then "agents/"
    else if m.category == CategoryBrokerage then "brokerages/"
    else "media/" + contentHash[..2] + "/"
  }

  /** generateS3Key: the folder, then the hash and the extension. */
  function GenerateS3Key(m: Media, contentHash: string, ext: string): (key: string)
    requires KnownCategory(m.category) || |contentHash| >= 2
    ensures HasSuffix(key, contentHash + ext)
  {
    var folder := KeyFolder(m, contentHash);
    assert (folder + (contentHash + ext))[|folder|..] == contentHash + ext;
    folder + (contentHash + ext)
  }

  /** The folders by category, as the source's format strings spell them. */
  lemma KeyFolders(m: Media, contentHash: string)
    requires KnownCategory(m.category) || |contentHash| >= 2
    ensures var p, c := SafeSegment(m.province), SafeSegment(m.city);
      (m.category == CategoryListing ==> KeyFolder(m, contentHash) == "listings/" + p + "/" + c + "/")
      && (m.category == CategoryProperty ==> KeyFolder(m, contentHash) == "properties/" + p + "/" + c + "/")
      && (m.category == CategoryRecord ==> KeyFolder(m, contentHash) == "properties/" + p + "/" + c + "/records/")
      && (m.category == CategoryAssessment ==> KeyFolder(m, contentHash) == "properties/" + p + "/" + c + "/assessments/")
      && (m.category == CategoryIntel ==> KeyFolder(m, contentHash) == "properties/" + p + "/" + c + "/intel/")
      && (m.category == CategoryAgent ==> KeyFolder(m, contentHash) == "agents/")
      && (m.category == CategoryBrokerage ==> KeyFolder(m, contentHash) == "brokerages/")
      && (!KnownCategory(m.category) ==> KeyFolder(m, contentHash) == "media/" + contentHash[..2] + "/")
  {
    FolderWhen(m, contentHash, CategoryListing, "listings/", "/");
    FolderWhen(m, contentHash, CategoryProperty, "properties/", "/");
    FolderWhen(m, contentHash, CategoryRecord, "properties/", "/records/");
    FolderWhen(m, contentHash, CategoryAssessment, "properties/", "/assessments/");
    FolderWhen(m, contentHash, CategoryIntel, "properties/", "/intel/");
  }

  /** The folder of a located category `cat`, with its root and its tail after the city named. */
  lemma FolderWhen(m: Media, contentHash: string, cat: string, root: string, tail: string)
    requires KnownCategory(m.category) || |contentHash| >= 2
    requires Located(cat) && KeyRoot(cat) == root && tail == "/" + KeyLeaf(cat)
    ensures m.category == cat ==>
      KeyFolder(m, contentHash) == root + SafeSegment(m.province) + "/" + SafeSegment(m.city) + tail
  {
    if m.category == cat {
      var front := root + SafeSegment(m.province) + "/" + SafeSegment(m.city);
      assert front + "/" + KeyLeaf(cat) == front + ("/" + KeyLeaf(cat));
    }
  }

  /** Agent and brokerage keys ignore province and city. */
  lemma PartyKeysIgnoreLocation(m1: Media, m2: Media, contentHash: string, ext: string)
    requires m1.category == m2.category
    requires m1.category == CategoryAgent || m1.category == CategoryBrokerage
    ensures GenerateS3Key(m1, contentHash, ext) == GenerateS3Key(m2, contentHash, ext)
  {
  }

  /** The same content under a listing and under an agent derives two keys, so it is stored twice. */
  lemma DedupIsPerKey(m1: Media, m2: Media, contentHash: string, ext: string)
    requires m1.category == CategoryListing && m2.category == CategoryAgent
    ensures GenerateS3Key(m1, contentHash, ext) != GenerateS3Key(m2, contentHash, ext)
  {
    assert KeyFolder(m1, contentHash)[0] == 'l';
    assert KeyFolder(m2, contentHash)[0] == 'a';
  }

  /** A listing photo and a property document of the same content get different keys too. */
  lemma ListingAndPropertyKeysDiffer(m1: Media, m2: Media, contentHash: string, ext: string)
    requires m1.category == CategoryListing && m2.category == CategoryProperty
    ensures GenerateS3Key(m1, contentHash, ext) != GenerateS3Key(m2, contentHash, ext)
  {
    assert KeyFolder(m1, contentHash)[0] == 'l';
    assert KeyFolder(m2, contentHash)[0] == 'p';
  }

  // ---------------------------------------------------------------------
  // Processing one item
  // ---------------------------------------------------------------------

  /** What fetching an item's URL gave: a transport or read error, or a response. */
  datatype Download =
    | DownloadError(msg: string)
    | Response(status: int, contentType: string, body: seq<byte>)

  datatype MediaProcessResult = MediaProcessResult(
    mediaId: Uuid,
    s3Key: string,
    contentHash: string,
    size: int,
    isDuplicate: bool,
    err: Option<string>)

  /** The storage key of downloaded content: the hex SHA-256 and the guessed extension. */
  function KeyFor(m: Media, body: seq<byte>, contentType: string, sha256: seq<byte> -> Digest): string
  {
    GenerateS3Key(m, HexEncode(sha256(body)), GuessExtension(m.originalUrl, contentType))
  }

  /** A row other than uuid.Nil already holds this key. */
  predicate KeyTaken(media: map<string, Media>, key: string)
  {
    exists u :: u in media && media[u].s3Key == Some(key) && media[u].id != NilUuid
  }

  /** The upload's content type: the response's, or image/jpeg when it has none. */
  function UploadContentType(contentType: string): string
  {
    if contentType == "" then "image/jpeg" else contentType
  }

  /** An S3-compatible bucket: what was uploaded under each key, and how many uploads were made. */
  class Bucket {
    var objects: map<string, (seq<byte>, string)>
    var uploads: nat
    const failing: bool

    constructor (failing: bool)
      ensures objects == map[] && uploads == 0 && this.failing == failing
    {
      objects, uploads := map[], 0;
      this.failing := failing;
    }

    method Upload(key: string, data: seq<byte>, contentType: string) returns (r: Result<()>)
      modifies this`objects, this`uploads
      ensures uploads == old(uploads) + 1
      ensures r.Err? <==> failing
      ensures objects == if r.Ok? then old(objects)[key := (data, contentType)] else old(objects)
    {
      uploads := uploads + 1;
      if failing {
        return Err("upload");
      }
      objects := objects[key := (data, contentType)];
      r := Ok(());
    }
  }

  /** Media ids are unique, as the table's primary key makes them. */
  predicate MediaIdsUnique(media: map<string, Media>)
  {
    forall u, v :: u in media && v in media && media[u].id == media[v].id ==> u == v
  }

  /**
   * The row after processBatch records `res`: a failure adds an attempt,
   * failing the row from the third on, keeps the key and clears the hash; a
   * duplicate or an upload stores key and hash and keeps the attempts.
   */
  function Settled(m: Media, res: MediaProcessResult): Media
  {
    if res.err.Some? then WithStatus(m, FailedStatus(m.attempts + 1), None, "", m.attempts + 1)
    else WithStatus(m, if res.isDuplicate then MediaDuplicate else MediaUploaded, Some(res.s3Key),
                    res.contentHash, m.attempts)
  }

  /** With unique ids, the UPDATE ... WHERE id changes exactly the row with that id. */
  lemma StatusSetOfUnique(media: map<string, Media>, url: string, status: string, s3Key: Option<string>,
                          contentHash: string, attempts: int)
    requires MediaIdsUnique(media) && url in media
    ensures MediaStatusSet(media, media[url].id, status, s3Key, contentHash, attempts)
            == media[url := WithStatus(media[url], status, s3Key, contentHash, attempts)]
    ensures MediaIdsUnique(MediaStatusSet(media, media[url].id, status, s3Key, contentHash, attempts))
  {
    var after := MediaStatusSet(media, media[url].id, status, s3Key, contentHash, attempts);
    forall u | u in media && u != url
      ensures after[u] == media[u]
    {
      assert media[u].id != media[url].id;
    }
  }

  /** The row after recording `res` with UpdateMediaStatus, which changes nothing when it fails. */
  function Recorded(m: Media, res: MediaProcessResult, updateFails: bool): Media
  {
    if updateFails then m else Settled(m, res)
  }

  /** The statuses a pending row can move to. */
  lemma SettledStatuses(m: Media, res: MediaProcessResult)
    ensures Settled(m, res).status in {MediaPending, MediaFailed, MediaUploaded, MediaDuplicate}
    ensures Settled(m, res).status == MediaPending <==> res.err.Some? && m.attempts + 1 < 3
    ensures Settled(m, res).status == MediaFailed <==> res.err.Some? && m.attempts + 1 >= 3
  {
  }

  /**
   * Only a failure below the ceiling puts a pending row back in the queue;
   * failed, uploaded and duplicate rows are never selected again.
   */
  lemma SettledReselected(m: Media, res: MediaProcessResult)
    requires IsPendingMedia(m)
    ensures IsPendingMedia(Settled(m, res)) <==> res.err.Some? && m.attempts + 1 < 3
    ensures Settled(m, res).attempts <= 3
  {
  }

  /** The worker keeps the attempt count of a row it uploads; MarkUploaded resets it. */
  lemma WorkerKeepsAttempts(m: Media, res: MediaProcessResult)
    requires res.err.None? && !res.isDuplicate && m.attempts != 0
    ensures Settled(m, res).attempts == m.attempts
    ensures Settled(m, res) != m.(status := MediaUploaded, s3Key := Some(res.s3Key),
                                  contentHash := res.contentHash, attempts := 0)
  {
  }

  /** A batch item the summary counts as processed: no error, and a duplicate or a stored status. */
  predicate CountedProcessed(res: MediaProcessResult, updateFails: bool)
  {
    res.err.None? && (res.isDuplicate || !updateFails)
  }

  /** The number of results the summary counts as processed. */
  function ProcessedCount(rs: seq<MediaProcessResult>, updateFails: bool): (n: nat)
    ensures n <= |rs|
  {
    if rs == [] then 0
    else ProcessedCount(rs[..|rs| - 1], updateFails) + (if CountedProcessed(rs[|rs| - 1], updateFails) then 1 else 0)
  }

  /**
   * Loop state of processBatch over the rows at `urls`, which held `items`
   * in `before`: the first |results| rows hold their recorded outcome, the
   * others and every row outside the batch are as they were.
   */
  predicate BatchState(before: map<string, Media>, cur: map<string, Media>, urls: seq<string>,
                       items: seq<Media>, results: seq<MediaProcessResult>, fails: bool)
  {
    |results| <= |items| == |urls| && cur.Keys == before.Keys
    && (forall j :: 0 <= j < |urls| ==> urls[j] in before)
    && (forall j :: 0 <= j < |results| ==>
          results[j].mediaId == items[j].id && cur[urls[j]] == Recorded(items[j], results[j], fails))
    && (forall j :: |results| <= j < |items| ==> cur[urls[j]] == items[j])
    && (forall u :: u in before && u !in urls ==> cur[u] == before[u])
  }

  lemma BatchStateStep(before: map<string, Media>, cur: map<string, Media>, urls: seq<string>,
                       items: seq<Media>, results: seq<MediaProcessResult>, fails: bool, res: MediaProcessResult)
    requires BatchState(before, cur, urls, items, results, fails) && |results| < |items|
    requires forall j, k :: 0 <= j < k < |urls| ==> urls[j] != urls[k]
    requires res.mediaId == items[|results|].id
    ensures BatchState(before, cur[urls[|results|] := Recorded(items[|results|], res, fails)], urls, items,
                       results + [res], fails)
  {
    var i := |results|;
    forall j | 0 <= j < |urls| && j != i
      ensures urls[j] != urls[i]
    {
      if j < i { assert urls[j] != urls[i]; } else { assert urls[i] != urls[j]; }
    }
    BatchStateStepAt(before, cur, urls, items, results, fails, res);
  }

  /** BatchStateStep, needing only that the row being recorded has its own url. */
  lemma BatchStateStepAt(before: map<string, Media>, cur: map<string, Media>, urls: seq<string>,
                         items: seq<Media>, results: seq<MediaProcessResult>, fails: bool, res: MediaProcessResult)
    requires BatchState(before, cur, urls, items, results, fails) && |results| < |items|
    requires forall j :: 0 <= j < |urls| && j != |results| ==> urls[j] != urls[|results|]
    requires res.mediaId == items[|results|].id
    ensures BatchState(before, cur[urls[|results|] := Recorded(items[|results|], res, fails)], urls, items,
                       results + [res], fails)
  {
    var i := |results|;
    var rec := Recorded(items[i], res, fails);
    var cur' := cur[urls[i] := rec];
    var results' := results + [res];
    forall j | 0 <= j < i
      ensures results'[j].mediaId == items[j].id && cur'[urls[j]] == Recorded(items[j], results'[j], fails)
    {
      assert results'[j] == results[j];
    }
    assert cur'[urls[i]] == Recorded(items[i], results'[i], fails);
  }

  class MediaWorkerService {
    const store: Store
    const uploader: Bucket?
    const sha256: seq<byte> -> Digest
    const trigger: TriggerSlot

    constructor (store: Store, uploader: Bucket?, sha256: seq<byte> -> Digest)
      ensures this.store == store && this.uploader == uploader && this.sha256 == sha256
      ensures fresh(trigger) && !trigger.pending
    {
      this.store := store;
      this.uploader := uploader;
      this.sha256 := sha256;
      trigger := new TriggerSlot();
    }

    /** Trigger: a second trigger while one is pending is dropped. */
    method Trigger() returns (sent: bool)
      modifies trigger
      ensures trigger.pending
      ensures sent <==> !old(trigger.pending)
    {
      sent := trigger.Trigger();
    }

    /**
     * Process: a failed download, a status other than 200 or a failed key
     * lookup is an error without an upload. A key some row already holds
     * makes a duplicate without an upload. Otherwise the uploader, when
     * there is one, is called exactly once, and its failure is the error.
     */
    method Process(m: Media, dl: Download) returns (res: MediaProcessResult)
      modifies uploader
      ensures res.mediaId == m.id
      ensures uploader != null ==> uploader.uploads <= old(uploader.uploads) + 1
      ensures (dl.DownloadError? || dl.status != 200) ==>
        res.err.Some? && !res.isDuplicate && (uploader != null ==> unchanged(uploader))
      ensures dl.Response? && dl.status == 200 ==>
        res.s3Key == KeyFor(m, dl.body, dl.contentType, sha256)
        && res.contentHash == HexEncode(sha256(dl.body)) && res.size == |dl.body|
      ensures dl.Response? && dl.status == 200 && GetMediaByS3KeyOp in store.failing ==>
        res.err.Some? && !res.isDuplicate && (uploader != null ==> unchanged(uploader))
      ensures dl.Response? && dl.status == 200 && GetMediaByS3KeyOp !in store.failing
              && KeyTaken(store.media, KeyFor(m, dl.body, dl.contentType, sha256)) ==>
        res.err.None? && res.isDuplicate && (uploader != null ==> unchanged(uploader))
      ensures dl.Response? && dl.status == 200 && GetMediaByS3KeyOp !in store.failing
              && !KeyTaken(store.media, KeyFor(m, dl.body, dl.contentType, sha256)) ==>
        !res.isDuplicate
        && (uploader == null ==> res.err.None?)
        && (uploader != null ==>
              uploader.uploads == old(uploader.uploads) + 1
              && (res.err.Some? <==> uploader.failing)
              && (res.err.None? ==> uploader.objects == old(uploader.objects)[res.s3Key :=
                                       (dl.body, UploadContentType(dl.contentType))]))
    {
      res := MediaProcessResult(m.id, "", "", 0, false, None);
      if dl.DownloadError? {
        return res.(err := Some("download: " + dl.msg));
      }
      if dl.status != 200 {
        return res.(err := Some("download status"));
      }
      var hash := HexEncode(sha256(dl.body));
      res := res.(size := |dl.body|, contentHash := hash);
      var ext := GuessExtension(m.originalUrl, dl.contentType);
      assert |hash| == 64;
      res := res.(s3Key := GenerateS3Key(m, hash, ext));
      var existing := store.GetMediaByS3Key(res.s3Key);
      if existing.Err? {
        return res.(err := Some("check existing: " + existing.msg));
      }
      if existing.value != NilUuid {
        return res.(isDuplicate := true);
      }
      if uploader != null {
        var contentType := UploadContentType(dl.contentType);
        var u := uploader.Upload(res.s3Key, dl.body, contentType);
        if u.Err? {
          return res.(err := Some("upload: " + u.msg));
        }
      }
    }

    /** Records one processed item on its row; says whether the summary counts it as processed. */
    method Record(ghost url: string, m: Media, res: MediaProcessResult) returns (processed: bool)
      requires url in store.media && store.media[url] == m && MediaIdsUnique(store.media)
      requires res.mediaId == m.id
      modifies store`media
      ensures MediaIdsUnique(store.media)
      ensures processed == CountedProcessed(res, UpdateMediaStatusOp in store.failing)
      ensures store.media == old(store.media)[url := Recorded(m, res, UpdateMediaStatusOp in store.failing)]
    {
      var r;
      if res.err.Some? {
        var attempts := m.attempts + 1;
        var status := MediaPending;
        if attempts >= 3 {
          status := MediaFailed;
        }
        StatusSetOfUnique(store.media, url, status, None, "", attempts);
        r := store.UpdateMediaStatus(m.id, status, None, "", attempts);
        processed := false;
      } else if res.isDuplicate {
        StatusSetOfUnique(store.media, url, MediaDuplicate, Some(res.s3Key), res.contentHash, m.attempts);
        r := store.UpdateMediaStatus(m.id, MediaDuplicate, Some(res.s3Key), res.contentHash, m.attempts);
        processed := true;
      } else {
        StatusSetOfUnique(store.media, url, MediaUploaded, Some(res.s3Key), res.contentHash, m.attempts);
        r := store.UpdateMediaStatus(m.id, MediaUploaded, Some(res.s3Key), res.contentHash, m.attempts);
        processed := r.Ok?;
      }
      if r.Err? {
        assert old(store.media)[url := m] == old(store.media);
      }
    }

    /** One item of the batch: process it, then record the outcome on its row. */
    method Step(ghost url: string, m: Media, dl: Download) returns (res: MediaProcessResult, counted: bool)
      requires url in store.media && store.media[url] == m && MediaIdsUnique(store.media)
      modifies store`media, uploader
      ensures MediaIdsUnique(store.media) && res.mediaId == m.id
      ensures counted == CountedProcessed(res, UpdateMediaStatusOp in store.failing)
      ensures store.media == old(store.media)[url := Recorded(m, res, UpdateMediaStatusOp in store.failing)]
    {
      res := Process(m, dl);
      counted := Record(url, m, res);
    }

    /**
     * processBatch: every pending item of the batch is processed once and
     * its outcome recorded on its row; rows outside the batch are not
     * touched. Each item counts as processed or as failed.
     */
    method ProcessBatch(batchSize: int, downloads: string -> Download)
      returns (processed: nat, failed: nat, ghost urls: seq<string>, ghost batch: seq<Media>,
               ghost results: seq<MediaProcessResult>)
      requires MediaIdsUnique(store.media)
      modifies store`media, uploader
      ensures MediaIdsUnique(store.media)
      ensures (GetPendingMediaOp in store.failing || batchSize < 0) ==>
        urls == [] && store.media == old(store.media)
      ensures |urls| == |batch| == |results| && processed + failed == |batch|
      ensures batchSize >= 0 ==> |batch| <= batchSize
      ensures processed == ProcessedCount(results, UpdateMediaStatusOp in store.failing)
      ensures store.media.Keys == old(store.media).Keys
      ensures forall i, j :: 0 <= i < j < |urls| ==> urls[i] != urls[j]
      ensures forall i :: 0 <= i < |urls| ==>
        urls[i] in old(store.media) && batch[i] == old(store.media)[urls[i]] && IsPendingMedia(batch[i])
        && results[i].mediaId == batch[i].id
        && store.media[urls[i]] == Recorded(batch[i], results[i], UpdateMediaStatusOp in store.failing)
      ensures forall u :: u in old(store.media) && u !in urls ==> store.media[u] == old(store.media)[u]
    {
      var pending;
      pending, urls := store.GetPendingMedia(batchSize);
      if pending.Err? {
        return 0, 0, [], [], [];
      }
      batch := pending.value;
      processed, failed, results := ProcessAll(urls, pending.value, downloads);
    }

    /** The loop of processBatch over the rows at `urls`, which hold `items`. */
    method ProcessAll(ghost urls: seq<string>, items: seq<Media>, downloads: string -> Download)
      returns (processed: nat, failed: nat, ghost results: seq<MediaProcessResult>)
      requires MediaIdsUnique(store.media) && |urls| == |items|
      requires forall j :: 0 <= j < |urls| ==> urls[j] in store.media && store.media[urls[j]] == items[j]
      requires forall j, k :: 0 <= j < k < |urls| ==> urls[j] != urls[k]
      modifies store`media, uploader
      ensures MediaIdsUnique(store.media) && store.media.Keys == old(store.media).Keys
      ensures |results| == |items| && processed + failed == |items|
      ensures processed == ProcessedCount(results, UpdateMediaStatusOp in store.failing)
      ensures forall j :: 0 <= j < |items| ==>
        results[j].mediaId == items[j].id
        && store.media[urls[j]] == Recorded(items[j], results[j], UpdateMediaStatusOp in store.failing)
      ensures forall u :: u in old(store.media) && u !in urls ==> store.media[u] == old(store.media)[u]
    {
      processed, failed, results := 0, 0, [];
      var i := 0;
      while i < |items|
        invariant 0 <= i <= |items| && |results| == i
        invariant BatchProgress(old(store.media), store.media, urls, items, results, processed, failed)
      {
        results, processed, failed := ProcessAt(old(store.media), urls, items, downloads, i, results, processed, failed);
        i := i + 1;
      }
    }

    /** The batch loop's state: BatchState, the counts, and unique media ids. */
    ghost predicate BatchProgress(before: map<string, Media>, cur: map<string, Media>, urls: seq<string>, items: seq<Media>,
                                  results: seq<MediaProcessResult>, processed: nat, failed: nat)
      reads store
    {
      MediaIdsUnique(cur) && processed + failed == |results|
      && processed == ProcessedCount(results, UpdateMediaStatusOp in store.failing)
      && BatchState(before, cur, urls, items, results, UpdateMediaStatusOp in store.failing)
    }

    /** One iteration of processBatch's loop: the next item processed and recorded. */
    method ProcessAt(ghost before: map<string, Media>, ghost urls: seq<string>, items: seq<Media>, downloads: string -> Download,
                     i: nat, ghost results: seq<MediaProcessResult>, processed: nat, failed: nat)
      returns (ghost results': seq<MediaProcessResult>, processed': nat, failed': nat)
      requires i == |results| < |items| && BatchProgress(before, store.media, urls, items, results, processed, failed)
      requires forall j, k :: 0 <= j < k < |urls| ==> urls[j] != urls[k]
      modifies store`media, uploader
      ensures |results'| == |results| + 1
      ensures BatchProgress(before, store.media, urls, items, results', processed', failed')
    {
      var m := items[i];
      var updateFails := UpdateMediaStatusOp in store.failing;
      ghost var prev := store.media;
      var res, counted := Step(urls[i], m, downloads(m.originalUrl));
      BatchStateStep(before, prev, urls, items, results, updateFails, res);
      assert (results + [res])[..i] == results;
      results' := results + [res];
      processed', failed' := if counted then processed + 1 else processed, if counted then failed else failed + 1;
    }
  }
}
