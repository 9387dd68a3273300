/** RemoteStorageWriter: a writer that buffers text in a temp file and
    uploads it to the store on close. Every failure surfaces as an
    S3ClientException. The temp file is `tmp`: its content while it
    exists, None once deleted. */
module RemoteStorage {
  import opened Types
  import opened ObjectStore
  import opened TempFile

  const CannotCreate: string := "Files buffer cannot be created due to error: "

  /** java.io.BufferedWriter's message for a buffer size below one. */
  const BadBufferSize: string := "Buffer size <= 0"

  class RemoteStorageWriter {
    var tmp: Option<string>
    const path: string
    const store: Bucket
    const backend: Backend
    /** How the temp file's characters become the uploaded bytes. */
    const encode: string -> seq<byte>

    constructor(path: string, store: Bucket, backend: Backend, encode: string -> seq<byte>)
      ensures tmp == Some("")
      ensures this.path == path && this.store == store && this.backend == backend && this.encode == encode
    {
      tmp := Some("");
      this.path := path;
      this.store := store;
      this.backend := backend;
      this.encode := encode;
    }

    /** The constructor: the temp file is created (failing when
        `createError` holds the file system's message), then the buffered
        writer, which refuses a size below one. */
    static method Open(path: string, size: int, store: Bucket, backend: Backend, encode: string -> seq<byte>, createError: Option<string>)
      returns (r: Result<RemoteStorageWriter, Exception>)
      ensures createError.Some? ==> r == Failure(S3ClientException(CannotCreate + createError.value, None))
      ensures createError.None? && size <= 0 ==> r == Failure(S3ClientException(CannotCreate + BadBufferSize, None))
      ensures r.Success? <==> createError.None? && size > 0
      ensures r.Success? ==> (fresh(r.value) && r.value.tmp == Some("") && r.value.path == path
                              && r.value.store == store && r.value.backend == backend && r.value.encode == encode)
    {
      if createError.Some? {
        return Failure(S3ClientException(CannotCreate + createError.value, None));
      }
      if size <= 0 {
        return Failure(S3ClientException(CannotCreate + BadBufferSize, None));
      }
      var writer := new RemoteStorageWriter(path, store, backend, encode);
      r := Success(writer);
    }

    /** deleteTmp: deleting a temp file that is already gone does nothing;
        a failed deletion leaves it in place. */
    method DeleteTmp(deleteError: Option<string>) returns (r: Option<Exception>)
      modifies this
      ensures tmp == (if old(tmp).Some? && deleteError.Some? then old(tmp) else None)
      ensures r == (if old(tmp).Some? && deleteError.Some? then Some(S3ClientException("Error in deleting file: " + deleteError.value, None)) else None)
    {
      if tmp.Some? && deleteError.Some? {
        return Some(S3ClientException("Error in deleting file: " + deleteError.value, None));
      }
      tmp := None;
      r := None;
    }

    /** write(data): a non-empty write is appended to the temp file; an
        empty or null one, or an append that fails, deletes it. */
    method Write(data: Option<string>, appendFails: bool, deleteError: Option<string>) returns (r: Option<Exception>)
      modifies this
      ensures tmp == Written(old(tmp), data, appendFails, deleteError.Some?)
      ensures r.Some? <==> Deletes(old(tmp), data, appendFails) && deleteError.Some?
      ensures r.Some? ==> r.value == S3ClientException("Error in deleting file: " + deleteError.value, None)
    {
      if NonEmpty(data) && !appendFails {
        if tmp.Some? {
          tmp := Some(tmp.value + data.value);
        }
        r := None;
      } else {
        r := DeleteTmp(deleteError);
      }
    }

    /** close(). */
    method Close(closeError: Option<string>, deleteError: Option<string>) returns (r: Option<Exception>)
      requires store.Valid()
      modifies this, store
      ensures store.Valid()
      ensures var c := CloseSpec(backend, old(store.State()), path, encode, old(tmp), closeError, deleteError);
              store.State() == c.world && tmp == c.tmp && r == c.thrown
    {
      var failure: Option<Exception> := None;
      if tmp.Some? {
        if closeError.Some? {
          failure := Some(S3ClientException("Error while close(): " + closeError.value, None));
        } else {
          var uploaded := UploadWith(backend, store, path, encode(tmp.value));
          if uploaded.Failure? {
            failure := Some(S3ClientException("Error while close(): " + Message(uploaded.error), None));
          }
        }
      }
      var deleted := DeleteTmp(deleteError);
      r := if deleted.Some? then deleted else failure;
    }
  }

  /** What close() leaves: the store, the temp file, and what it threw. */
  datatype Closing = Closing(world: World, tmp: Option<string>, thrown: Option<Exception>)

  /** close(): if the temp file exists, flush it (failing with
      `closeError`) and upload it; a failure is rethrown with its message;
      the temp file is then deleted, and a failed deletion's exception
      replaces any earlier one, as a finally block's does. */
  function CloseSpec(backend: Backend, w: World, path: string, encode: string -> seq<byte>,
                     tmp: Option<string>, closeError: Option<string>, deleteError: Option<string>): Closing
  {
    var up := Upload(backend, w, path, encode(if tmp.Some? then tmp.value else ""));
    var uploads := tmp.Some? && closeError.None?;
    var failure := if tmp.Some? && closeError.Some? then Some(S3ClientException("Error while close(): " + closeError.value, None))
                   else if uploads && up.answer.Failure? then Some(S3ClientException("Error while close(): " + Message(up.answer.error), None))
                   else None;
    var deleteFails := tmp.Some? && deleteError.Some?;
    Closing(if uploads then up.world else w,
            if deleteFails then tmp else None,
            if deleteFails then Some(S3ClientException("Error in deleting file: " + deleteError.value, None)) else failure)
  }

  /** After close the temp file is gone, whatever happened to the upload,
      unless deleting it failed, which is then what close throws. */
  lemma CloseDeletes(backend: Backend, w: World, path: string, encode: string -> seq<byte>,
                     tmp: Option<string>, closeError: Option<string>, deleteError: Option<string>)
    ensures var c := CloseSpec(backend, w, path, encode, tmp, closeError, deleteError);
            && (c.tmp.None? <==> tmp.None? || deleteError.None?)
            && (c.tmp.Some? ==> c.thrown == Some(S3ClientException("Error in deleting file: " + deleteError.value, None)))
  {
  }

  /** Without a temp file close sends nothing and throws nothing. */
  lemma CloseWithoutTmp(backend: Backend, w: World, path: string, encode: string -> seq<byte>,
                        closeError: Option<string>, deleteError: Option<string>)
    ensures CloseSpec(backend, w, path, encode, None, closeError, deleteError) == Closing(w, None, None)
  {
  }

  /** An upload that fails is rethrown with the client's message. */
  lemma CloseRethrows(backend: Backend, w: World, path: string, encode: string -> seq<byte>, text: string)
    requires |w.trace| in w.faults
    ensures var c := CloseSpec(backend, w, path, encode, Some(text), None, None);
            && c.world.objects == w.objects
            && c.thrown == Some(S3ClientException("Error while close(): " + (if backend.MinioBackend? then "Cannot write stream: " else "Cannot write file: ") + path, None))
  {
    Assoc("Error while close(): ", if backend.MinioBackend? then "Cannot write stream: " else "Cannot write file: ", path);
  }

  /** A writer opened, given only non-empty writes and closed without
      failures stores exactly their text, in order, at its path. */
  lemma UploadsAllWrites(backend: Backend, w: World, path: string, encode: string -> seq<byte>, writes: seq<Option<string>>)
    requires forall i | 0 <= i < |writes| :: NonEmpty(writes[i])
    requires path != "" && |w.trace| !in w.faults
    ensures var c := CloseSpec(backend, w, path, encode, AfterWrites(Some(""), writes), None, None);
            && c.world.objects == w.objects[path := encode(Text(writes))]
            && c.tmp.None? && c.thrown.None?
  {
    AfterNonEmptyWrites("", writes);
    assert "" + Text(writes) == Text(writes);
  }

  /** Once an empty or null write came, close uploads nothing. */
  lemma NoUploadAfterEmptyWrite(backend: Backend, w: World, path: string, encode: string -> seq<byte>, writes: seq<Option<string>>, i: nat)
    requires i < |writes| && !NonEmpty(writes[i])
    ensures CloseSpec(backend, w, path, encode, AfterWrites(Some(""), writes), None, None) == Closing(w, None, None)
  {
    AfterEmptyWrite(Some(""), writes, i);
  }
}
