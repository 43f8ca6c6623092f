/**
  The S3 client that the host tools and the in-container watcher talk to.
  The service itself is out of reach: every call is recorded in order, and
  the service's answer to it is an input supplied by the caller.
 */
module ObjectStore {

  newtype byte = b: int | 0 <= b < 256

  /** One request sent to the storage service. */
  datatype Call =
    | PutObject(bucket: string, key: string, body: seq<byte>, contentType: string)
    | UploadFile(path: string, bucket: string, key: string)
    | PresignGetObject(bucket: string, key: string, expiresIn: int)

  /** The service's answer to a put or an upload: done, or the text of the exception raised. */
  datatype Reply = Done | Failed(msg: string)

  /** The service's answer to a presign request. */
  datatype PresignReply = Presigned(url: string) | PresignFailed(msg: string)

  /** The answers to one upload followed by one presign request. */
  datatype UploadReplies = UploadReplies(store: Reply, presign: PresignReply)

  class Client {
    /** Every request made through this client, oldest first. */
    var calls: seq<Call>

    constructor ()
      ensures calls == []
    {
      calls := [];
    }

    /** `put_object(Bucket=..., Key=..., Body=..., ContentType=...)`. */
    method PutObject(bucket: string, key: string, body: seq<byte>, contentType: string, reply: Reply)
      returns (ok: bool)
      modifies this
      ensures calls == old(calls) + [Call.PutObject(bucket, key, body, contentType)]
      ensures ok <==> reply.Done?
    {
      calls := calls + [Call.PutObject(bucket, key, body, contentType)];
      ok := reply.Done?;
    }

    /** `upload_file(path, bucket, key)`. */
    method UploadFile(path: string, bucket: string, key: string, reply: Reply) returns (ok: bool)
      modifies this
      ensures calls == old(calls) + [Call.UploadFile(path, bucket, key)]
      ensures ok <==> reply.Done?
    {
      calls := calls + [Call.UploadFile(path, bucket, key)];
      ok := reply.Done?;
    }

    /** `generate_presigned_url("get_object", Params={"Bucket": ..., "Key": ...}, ExpiresIn=...)`. */
    method PresignGetObject(bucket: string, key: string, expiresIn: int, reply: PresignReply)
      returns (url: string, ok: bool)
      modifies this
      ensures calls == old(calls) + [Call.PresignGetObject(bucket, key, expiresIn)]
      ensures ok <==> reply.Presigned?
      ensures ok ==> url == reply.url
    {
      calls := calls + [Call.PresignGetObject(bucket, key, expiresIn)];
      ok := reply.Presigned?;
      url := if ok then reply.url else "";
    }
  }
}
