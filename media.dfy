/**
 * The media queue (services/media.go): enqueue by original URL, and the
 * status updates of a processed item.
 */
module MediaService {
  import opened Util
  import opened Models
  import opened Postgres

  /** What a caller asks to be queued; category, province and city feed the storage key. */
  datatype EnqueueParams = EnqueueParams(originalUrl: string, mediaType: string, category: string,
                                         province: string, city: string)

  /** The row Enqueue inserts: pending, no attempts, no key yet. */
  function NewMedia(p: EnqueueParams, id: Uuid, now: Time): Media
  {
    Media(id, None, "", p.mediaType, p.category, p.province, p.city, "", None, p.originalUrl,
          None, None, MediaPending, 0, now)
  }

  /**
   * Returns the id of the row stored under the URL, inserting a pending row
   * with a fresh id first when there is none. Errors return no id and leave
   * the table unchanged.
   */
  method Enqueue(store: Store, ids: IdSource, p: EnqueueParams, now: Time) returns (r: Result<Uuid>)
    requires ids.Valid()
    modifies store`media, ids
    ensures ids.Valid() && old(ids.next) <= ids.next
    ensures GetMediaByUrlOp in store.failing ==> r.Err? && store.media == old(store.media)
    ensures GetMediaByUrlOp !in store.failing && p.originalUrl in old(store.media) ==>
      r == Ok(old(store.media)[p.originalUrl].id) && store.media == old(store.media)
    ensures GetMediaByUrlOp !in store.failing && p.originalUrl !in old(store.media) ==>
      (r.Err? <==> UpsertMediaOp in store.failing)
      && (r.Err? ==> store.media == old(store.media))
      && (r.Ok? ==> r.value == old(ids.next)
                    && store.media == old(store.media)[p.originalUrl := NewMedia(p, old(ids.next), now)])
  {
    var existing := store.GetMediaByOriginalUrl(p.originalUrl);
    if existing.Err? {
      return Err(existing.msg);
    }
    if existing.value.Some? {
      return Ok(existing.value.value.id);
    }
    var id := ids.New();
    var m := NewMedia(p, id, now);
    var u := store.UpsertMedia(m);
    if u.Err? {
      return Err(u.msg);
    }
    r := Ok(m.id);
  }

  /**
   * Enqueueing a URL twice gives the same id both times: the id of the row
   * stored under that URL.
   */
  method EnqueueTwice(store: Store, ids: IdSource, p: EnqueueParams, now: Time) returns (r1: Result<Uuid>, r2: Result<Uuid>)
    requires ids.Valid()
    modifies store`media, ids
    ensures r1.Ok? ==> r2 == r1 && p.originalUrl in store.media && store.media[p.originalUrl].id == r1.value
  {
    r1 := Enqueue(store, ids, p, now);
    ghost var between := store.media;
    r2 := Enqueue(store, ids, p, now);
    assert r1.Ok? ==> p.originalUrl in between && between[p.originalUrl].id == r1.value;
  }

  /** Sets uploaded with the key and hash; attempts go back to 0. */
  method MarkUploaded(store: Store, id: Uuid, s3Key: string, contentHash: string) returns (r: Result<()>)
    modifies store`media
    ensures UpdateMediaStatusOp in store.failing <==> r.Err?
    ensures r.Err? ==> store.media == old(store.media)
    ensures r.Ok? ==>
      store.media == (map u | u in old(store.media) ::
        if old(store.media)[u].id == id
        then old(store.media)[u].(status := MediaUploaded, s3Key := Some(s3Key), contentHash := contentHash, attempts := 0)
        else old(store.media)[u])
  {
    r := store.UpdateMediaStatus(id, MediaUploaded, Some(s3Key), contentHash, 0);
  }

  /** The status MarkFailed writes: failed from the third attempt on. */
  function FailedStatus(attempts: int): (s: string)
    ensures s == MediaFailed <==> attempts >= 3
    ensures s == MediaPending <==> attempts < 3
  {
    if attempts >= 3 then MediaFailed else MediaPending
  }

  /** Records a failed attempt: the key is kept, the hash cleared. */
  method MarkFailed(store: Store, id: Uuid, attempts: int) returns (r: Result<()>)
    modifies store`media
    ensures UpdateMediaStatusOp in store.failing <==> r.Err?
    ensures r.Err? ==> store.media == old(store.media)
    ensures r.Ok? ==>
      store.media == (map u | u in old(store.media) ::
        if old(store.media)[u].id == id
        then old(store.media)[u].(status := FailedStatus(attempts), contentHash := "", attempts := attempts)
        else old(store.media)[u])
  {
    var status := MediaPending;
    if attempts >= 3 {
      status := MediaFailed;
    }
    r := store.UpdateMediaStatus(id, status, None, "", attempts);
  }

  /**
   * The retry ceiling: after a failed attempt the row is selected again by
   * the pending query exactly when fewer than 3 attempts have been made.
   */
  lemma RetryCeiling(m: Media, attempts: int)
    ensures IsPendingMedia(m.(status := FailedStatus(attempts), contentHash := "", attempts := attempts)) <==> attempts < 3
  {
  }

  /** An uploaded row is never selected again. */
  lemma UploadedIsFinal(m: Media, s3Key: string, contentHash: string)
    ensures !IsPendingMedia(m.(status := MediaUploaded, s3Key := Some(s3Key), contentHash := contentHash, attempts := 0))
  {
  }

  /** GetPending: the pending query itself. */
  method GetPending(store: Store, limit: int) returns (r: Result<seq<Media>>, ghost urls: seq<string>)
    ensures (GetPendingMediaOp in store.failing || limit < 0) <==> r.Err?
    ensures r.Ok? ==> |urls| == |r.value| <= limit
    ensures r.Ok? ==> forall i :: 0 <= i < |urls| ==>
      urls[i] in store.media && r.value[i] == store.media[urls[i]] && IsPendingMedia(r.value[i])
    ensures r.Ok? ==> forall i, j :: 0 <= i < j < |urls| ==> urls[i] != urls[j]
    ensures r.Ok? ==> forall i, j :: 0 <= i < j < |urls| ==> r.value[i].createdAt <= r.value[j].createdAt
    ensures r.Ok? && |urls| < limit ==> forall u :: u in store.media && IsPendingMedia(store.media[u]) ==> u in urls
    ensures r.Ok? ==> forall u, i :: u in store.media && IsPendingMedia(store.media[u]) && u !in urls && 0 <= i < |urls| ==>
      r.value[i].createdAt <= store.media[u].createdAt
  {
    r, urls := store.GetPendingMedia(limit);
  }
}
