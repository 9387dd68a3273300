/** Values shared by every part of the S3 client model: bytes, results, the
    error codes an S3 backend answers with, and the exceptions the client
    raises. */
module Types {

  /** One octet of an object's content. */
  newtype byte = b: int | 0 <= b < 256

  datatype Option<+T> = None | Some(value: T)

  datatype Result<+T, +E> = Success(value: T) | Failure(error: E)

  /** The minimum size of every multipart part except the last one, from
      the S3 documentation of UploadPart and CompleteMultipartUpload
      (5 MiB). io.minio.ObjectWriteArgs.MIN_MULTIPART_SIZE holds the same
      number, and the append routines compare object sizes against it. */
  const MinMultipartSize: nat := 5 * 1024 * 1024

  /** Part numbers of a multipart upload range over 1..10000. */
  const MaxPartNumber: nat := 10000

  /** The errors a backend call can answer with. */
  datatype ErrorCode =
    | TransportError      // the network or the SDK failed; no effect on the store
    | NoSuchKey           // the object does not exist
    | NoSuchUpload        // unknown upload id, another key, or a terminal session
    | InvalidArgument     // an empty key or a part number outside 1..10000
    | MalformedXML        // a completion request that lists no part
    | InvalidPartOrder    // the listed part numbers are not ascending
    | InvalidPart         // a listed part was not uploaded or has another ETag
    | EntityTooSmall      // a part other than the last is below 5 MiB

  /** The exceptions the client code raises, each with its cause chain. */
  datatype Exception =
    | SdkException(code: ErrorCode)
    | S3ClientException(message: string, cause: Option<Exception>)
    | IOException(message: string)
    | IllegalArgumentException(message: string)
    | RuntimeException(message: string, cause: Option<Exception>)

  /** The innermost exception of a cause chain. */
  function RootCause(e: Exception): (root: Exception)
    ensures root.S3ClientException? ==> root.cause.None?
    ensures root.RuntimeException? ==> root.cause.None?
  {
    match e
    case S3ClientException(_, Some(c)) => RootCause(c)
    case RuntimeException(_, Some(c)) => RootCause(c)
    case _ => e
  }

  /** Java's Throwable.getMessage(). */
  function Message(e: Exception): string {
    match e
    case SdkException(_) => ""  // the SDK's own wording is not modelled
    case S3ClientException(m, _) => m
    case IOException(m) => m
    case IllegalArgumentException(m) => m
    case RuntimeException(m, _) => m
  }

  /** The concatenation of a sequence of sequences, in order. */
  function Flatten<T>(parts: seq<seq<T>>): (r: seq<T>)
  {
    if parts == [] then [] else parts[0] + Flatten(parts[1..])
  }

  lemma {:induction false} FlattenAppend<T>(parts: seq<seq<T>>, last: seq<T>)
    ensures Flatten(parts + [last]) == Flatten(parts) + last
  {
    if parts == [] {
      assert parts + [last] == [last];
    } else {
      assert (parts + [last])[1..] == parts[1..] + [last];
      FlattenAppend(parts[1..], last);
    }
  }

  /** Concatenation regroups freely. */
  lemma Assoc<T>(a: seq<T>, b: seq<T>, c: seq<T>)
    ensures a + b + c == a + (b + c)
  {
  }
}
