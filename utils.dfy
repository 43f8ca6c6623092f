/** `Utils`: the host side's storage-key generator and byte upload. */
module Utils {
  import opened Wrappers
  import opened Exceptions
  import opened PyStrings
  import opened Timestamps
  import opened ObjectStore

  const DefaultContentType := "application/octet-stream"
  const DefaultExpirySeconds := 300
  const UploadErrorPrefix := "Failed to upload to S3: "

  /**
    `get_unique_s3_obj_key(extension)`: the instant and the `uuid4` text are
    inputs here, since the model has no clock and no randomness.
   */
  function UniqueObjectKey(now: DateTime, uid: string, extension: string): (key: string)
    requires Valid(now)
    ensures |key| == 14 + 1 + |uid| + 1 + |extension|
    ensures key[..14] == Timestamp(now) && key[14] == '_'
    ensures key[15..15 + |uid|] == uid
    ensures EndsWith(key, "." + extension)
  {
    var key := Timestamp(now) + "_" + uid + "." + extension;
    assert key[|key| - |"." + extension|..] == "." + extension;
    key
  }

  /**
    Keys made within one second for one extension differ whenever the
    unique ids differ; more generally the instant and the id can both be read
    back from a key once the id's length is known (a `uuid4` text is always 36
    characters).
   */
  lemma KeyDeterminesInstantAndId(now1: DateTime, uid1: string, now2: DateTime, uid2: string, extension: string)
    requires Valid(now1) && Valid(now2)
    requires |uid1| == |uid2|
    requires UniqueObjectKey(now1, uid1, extension) == UniqueObjectKey(now2, uid2, extension)
    ensures now1 == now2 && uid1 == uid2
  {
    var k := UniqueObjectKey(now1, uid1, extension);
    assert Timestamp(now1) == k[..14] == Timestamp(now2);
    TimestampInjective(now1, now2);
  }

  /** For one instant and one extension, distinct ids give distinct keys (ids of any length). */
  lemma KeyInjectiveInId(now: DateTime, uid1: string, uid2: string, extension: string)
    requires Valid(now)
    requires uid1 != uid2
    ensures UniqueObjectKey(now, uid1, extension) != UniqueObjectKey(now, uid2, extension)
  {
    if |uid1| == |uid2| {
      if UniqueObjectKey(now, uid1, extension) == UniqueObjectKey(now, uid2, extension) {
        KeyDeterminesInstantAndId(now, uid1, now, uid2, extension);
      }
    }
  }

  /** A dot is always inserted, so an extension given with its dot yields `".."` before it. */
  lemma KeyDoublesLeadingDot(now: DateTime, uid: string, extension: string)
    requires Valid(now)
    requires StartsWith(extension, ".")
    ensures EndsWith(UniqueObjectKey(now, uid, extension), ".." + extension[1..])
  {
    var key := UniqueObjectKey(now, uid, extension);
    assert "." + extension == ".." + extension[1..];
  }

  /** What `upload_bytes_to_s3` returns or raises, given the service's answers. */
  function UploadOutcome(replies: UploadReplies): (r: Result<string, Exception>)
    ensures r.Ok? <==> replies.store.Done? && replies.presign.Presigned?
    ensures r.Ok? ==> r.value == replies.presign.url
    ensures r.Err? ==> r.error.RuntimeError? && StartsWith(r.error.msg, UploadErrorPrefix)
  {
    match replies.store
    case Failed(m) => Err(RuntimeError(UploadErrorPrefix + m))
    case Done =>
      match replies.presign
      case PresignFailed(m) => Err(RuntimeError(UploadErrorPrefix + m))
      case Presigned(url) => Ok(url)
  }

  /** The requests `upload_bytes_to_s3` makes: the put, then a presign for the same object only if the put succeeded. */
  function UploadCalls(bucket: string, key: string, data: seq<byte>, contentType: string, expirySeconds: int,
                       replies: UploadReplies): (calls: seq<Call>)
    ensures 1 <= |calls| <= 2
    ensures calls[0] == Call.PutObject(bucket, key, data, contentType)
    ensures |calls| == 2 <==> replies.store.Done?
    ensures |calls| == 2 ==> calls[1] == Call.PresignGetObject(bucket, key, expirySeconds)
  {
    [Call.PutObject(bucket, key, data, contentType)]
    + if replies.store.Done? then [Call.PresignGetObject(bucket, key, expirySeconds)] else []
  }

  /**
    `upload_bytes_to_s3(bucket_name, object_key, data, content_type, expiry_seconds)`:
    put the bytes, then ask for a presigned URL for the same bucket and key.
    Callers that use the defaults pass `DefaultContentType` and `DefaultExpirySeconds`.
   */
  method UploadBytesToS3(client: Client, bucket: string, key: string, data: seq<byte>,
                         contentType: string, expirySeconds: int, replies: UploadReplies)
    returns (r: Result<string, Exception>)
    modifies client
    ensures client.calls == old(client.calls) + UploadCalls(bucket, key, data, contentType, expirySeconds, replies)
    ensures r == UploadOutcome(replies)
  {
    var put := client.PutObject(bucket, key, data, contentType, replies.store);
    if !put {
      return Err(RuntimeError(UploadErrorPrefix + replies.store.msg));
    }
    var url, ok := client.PresignGetObject(bucket, key, expirySeconds, replies.presign);
    if !ok {
      return Err(RuntimeError(UploadErrorPrefix + replies.presign.msg));
    }
    r := Ok(url);
  }
}
