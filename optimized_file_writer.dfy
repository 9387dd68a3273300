/** OptimizedFileWriter: the same temp-file writer as RemoteStorageWriter,
    except that a failed upload on close is skipped silently and file
    system failures surface as RuntimeException. */
module OptimizedFile {
  import opened Types
  import opened ObjectStore
  import opened TempFile
  import RemoteStorage

  /** new RuntimeException(e) for an IOException: its message is the
      cause's toString(). */
  function Rethrown(message: string): Exception {
    RuntimeException("java.io.IOException: " + message, Some(IOException(message)))
  }

  class OptimizedFileWriter {
    var tmp: Option<string>
    const path: string
    const store: Bucket
    const backend: Backend
    /** How the temp file's characters become the uploaded bytes. */
    const encode: string -> seq<byte>

    constructor(path: string, store: Bucket, backend: Backend, encode: string -> seq<byte>)
      ensures tmp == Some("")
      ensures this.path == path && this.store == store && this.backend == backend && this.encode == encode
    {
      tmp := Some("");
      this.path := path;
      this.store := store;
      this.backend := backend;
      this.encode := encode;
    }

    /** The constructor: only an IOException is caught and wrapped; the
        buffered writer's refusal of a size below one escapes as it is. */
    static method Open(path: string, size: int, store: Bucket, backend: Backend, encode: string -> seq<byte>, createError: Option<string>)
      returns (r: Result<OptimizedFileWriter, Exception>)
      ensures createError.Some? ==> r == Failure(RuntimeException(RemoteStorage.CannotCreate, Some(IOException(createError.value))))
      ensures createError.None? && size <= 0 ==> r == Failure(IllegalArgumentException(RemoteStorage.BadBufferSize))
      ensures r.Success? <==> createError.None? && size > 0
      ensures r.Success? ==> (fresh(r.value) && r.value.tmp == Some("") && r.value.path == path
                              && r.value.store == store && r.value.backend == backend && r.value.encode == encode)
    {
      if createError.Some? {
        return Failure(RuntimeException(RemoteStorage.CannotCreate, Some(IOException(createError.value))));
      }
      if size <= 0 {
        return Failure(IllegalArgumentException(RemoteStorage.BadBufferSize));
      }
      var writer := new OptimizedFileWriter(path, store, backend, encode);
      r := Success(writer);
    }

    /** Files.deleteIfExists, with an IOException rethrown. */
    method DeleteTmp(deleteError: Option<string>) returns (r: Option<Exception>)
      modifies this
      ensures tmp == (if old(tmp).Some? && deleteError.Some? then old(tmp) else None)
      ensures r == (if old(tmp).Some? && deleteError.Some? then Some(Rethrown(deleteError.value)) else None)
    {
      if tmp.Some? && deleteError.Some? {
        return Some(Rethrown(deleteError.value));
      }
      tmp := None;
      r := None;
    }

    /** write(data): a non-empty write is appended to the temp file; an
        empty or null one, or an append that fails, deletes it. */
    method Write(data: Option<string>, appendFails: bool, deleteError: Option<string>) returns (r: Option<Exception>)
      modifies this
      ensures tmp == Written(old(tmp), data, appendFails, deleteError.Some?)
      ensures r.Some? <==> Deletes(old(tmp), data, appendFails) && deleteError.Some?
      ensures r.Some? ==> r.value == Rethrown(deleteError.value)
    {
      if NonEmpty(data) && !appendFails {
        if tmp.Some? {
          tmp := Some(tmp.value + data.value);
        }
        r := None;
      } else {
        r := DeleteTmp(deleteError);
      }
    }

    /** close(). */
    method Close(closeError: Option<string>, deleteError: Option<string>) returns (r: Option<Exception>)
      requires store.Valid()
      modifies this, store
      ensures store.Valid()
      ensures var c := CloseSpec(backend, old(store.State()), path, encode, old(tmp), closeError, deleteError);
              store.State() == c.world && tmp == c.tmp && r == c.thrown
    {
      if tmp.Some? && closeError.None? {
        var _ := UploadWith(backend, store, path, encode(tmp.value));
      }
      r := DeleteTmp(deleteError);
    }
  }

  /** close(): if the temp file exists, flush it (failing with
      `closeError`) and upload it, ignoring any failure; then delete the
      temp file, whose failure is the only thing close throws. */
  function CloseSpec(backend: Backend, w: World, path: string, encode: string -> seq<byte>,
                     tmp: Option<string>, closeError: Option<string>, deleteError: Option<string>): RemoteStorage.Closing
  {
    var uploads := tmp.Some? && closeError.None?;
    var deleteFails := tmp.Some? && deleteError.Some?;
    RemoteStorage.Closing(if uploads then Upload(backend, w, path, encode(tmp.value)).world else w,
                          if deleteFails then tmp else None,
                          if deleteFails then Some(Rethrown(deleteError.value)) else None)
  }

  /** Close throws exactly when deleting the temp file fails: neither a
      failed flush nor a failed upload is reported. */
  lemma CloseSwallows(backend: Backend, w: World, path: string, encode: string -> seq<byte>,
                      tmp: Option<string>, closeError: Option<string>, deleteError: Option<string>)
    ensures var c := CloseSpec(backend, w, path, encode, tmp, closeError, deleteError);
            && (c.thrown.Some? <==> tmp.Some? && deleteError.Some?)
            && (c.thrown.Some? ==> c.thrown.value.RuntimeException? && c.thrown.value.cause == Some(IOException(deleteError.value)))
            && (c.tmp.None? <==> c.thrown.None?)
  {
  }

  /** Both writers leave the store and the temp file alike on close; they
      differ only in what they throw. */
  lemma WritersAgree(backend: Backend, w: World, path: string, encode: string -> seq<byte>,
                     tmp: Option<string>, closeError: Option<string>, deleteError: Option<string>)
    ensures var o := CloseSpec(backend, w, path, encode, tmp, closeError, deleteError);
            var r := RemoteStorage.CloseSpec(backend, w, path, encode, tmp, closeError, deleteError);
            && o.world == r.world && o.tmp == r.tmp
            && (o.thrown.Some? ==> r.thrown.Some?)
  {
  }

  /** A writer opened, given only non-empty writes and closed without
      failures stores exactly their text, in order, at its path. */
  lemma UploadsAllWrites(backend: Backend, w: World, path: string, encode: string -> seq<byte>, writes: seq<Option<string>>)
    requires forall i | 0 <= i < |writes| :: NonEmpty(writes[i])
    requires path != "" && |w.trace| !in w.faults
    ensures var c := CloseSpec(backend, w, path, encode, AfterWrites(Some(""), writes), None, None);
            && c.world.objects == w.objects[path := encode(Text(writes))]
            && c.tmp.None? && c.thrown.None?
  {
    AfterNonEmptyWrites("", writes);
    assert "" + Text(writes) == Text(writes);
  }

  /** Once an empty or null write came, close uploads nothing. */
  lemma NoUploadAfterEmptyWrite(backend: Backend, w: World, path: string, encode: string -> seq<byte>, writes: seq<Option<string>>, i: nat)
    requires i < |writes| && !NonEmpty(writes[i])
    ensures CloseSpec(backend, w, path, encode, AfterWrites(Some(""), writes), None, None) == RemoteStorage.Closing(w, None, None)
  {
    AfterEmptyWrite(Some(""), writes, i);
  }
}
