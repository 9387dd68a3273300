/** MinioS3Client: the storage operations over the MinIO SDK, and the
    size-threshold append. Every backend failure is rethrown as an
    S3ClientException whose cause is the SDK's exception. Each operation
    is a method over the bucket, proved to act as a pure function of the
    bucket's state (the ...Spec functions), and the properties the client
    promises are proved about those functions. */
module Minio {
  import opened Types
  import opened Keys
  import opened ObjectStore

  function Wrap(message: string, code: ErrorCode): Exception {
    S3ClientException(message, Some(SdkException(code)))
  }

  function AppendFailed(path: string): string {
    "Cannot append data for path: " + path
  }

  /** What one client operation answers, with the state it leaves behind. */
  type Outcome<T> = Reply<Result<T, Exception>>

  /** write(path, is): one PutObject of the whole stream. */
  function WriteSpec(w: World, path: string, data: seq<byte>): (r: Outcome<string>)
    ensures r.answer.Success? <==> path != "" && |w.trace| !in w.faults
    ensures r.answer.Success? ==> r.answer.value == path && r.world.objects == w.objects[path := data]
    ensures r.answer.Failure? ==> (r.world.objects == w.objects
                                   && r.answer.error.S3ClientException? && r.answer.error.message == "Cannot write stream: " + path)
  {
    var put := PutStep(w, path, data);
    Reply(put.world, if put.answer.Some? then Failure(Wrap("Cannot write stream: " + path, put.answer.value)) else Success(path))
  }

  method Write(store: Bucket, path: string, data: seq<byte>) returns (r: Result<string, Exception>)
    requires store.Valid()
    modifies store
    ensures store.Valid()
    ensures var spec := WriteSpec(old(store.State()), path, data); store.State() == spec.world && r == spec.answer
  {
    var err := store.Put(path, data);
    if err.Some? {
      r := Failure(Wrap("Cannot write stream: " + path, err.value));
    } else {
      r := Success(path);
    }
  }

  /** remove(path): deletes one object and returns its path. */
  function RemoveSpec(w: World, path: string): (r: Outcome<string>)
    ensures r.answer.Success? <==> path != "" && |w.trace| !in w.faults
    ensures r.answer.Success? ==> r.answer.value == path && r.world.objects == w.objects - {path}
    ensures r.answer.Failure? ==> (r.world.objects == w.objects
                                   && r.answer.error.S3ClientException? && r.answer.error.message == "Error deleting file: ")
  {
    var del := RemoveStep(w, path);
    Reply(del.world, if del.answer.Some? then Failure(Wrap("Error deleting file: ", del.answer.value)) else Success(path))
  }

  method Remove(store: Bucket, path: string) returns (r: Result<string, Exception>)
    requires store.Valid()
    modifies store
    ensures store.Valid()
    ensures var spec := RemoveSpec(old(store.State()), path); store.State() == spec.world && r == spec.answer
  {
    var err := store.Remove(path);
    if err.Some? {
      r := Failure(Wrap("Error deleting file: ", err.value));
    } else {
      r := Success(path);
    }
  }

  /** What remove(paths...) throws when the iterator over the request's
      results yields anything: a per-object error, or the failed request
      itself, which the iterator reports as an item. The "Error deleting"
      exception is thrown inside the try block, so the catch block wraps it
      once more. */
  const RemoveAllFailed: Exception := S3ClientException("Error deleting file: ", Some(S3ClientException("Error deleting", None)))

  /** remove(paths...): the SDK's lazy iterator sends one DeleteObjects
      request for the given paths, and none for no paths; the given paths
      come back as given unless the iterator yields an error. */
  function RemoveAllSpec(w: World, paths: seq<string>): (r: Outcome<seq<string>>)
    ensures paths == [] ==> r == Reply(w, Success([]))
    ensures r.answer.Success? <==> paths == [] || ("" !in paths && |w.trace| !in w.faults)
    ensures r.answer.Success? ==> r.answer.value == paths && r.world.objects == w.objects - set p | p in paths
    ensures |w.trace| in w.faults ==> r.world.objects == w.objects
    ensures |w.trace| !in w.faults ==> r.world.objects == w.objects - set p | p in paths && p != ""
    ensures r.answer.Failure? ==> r.answer.error == RemoveAllFailed
  {
    if paths == [] then Reply(w, Success([]))
    else
      var del := RemoveAllStep(w, paths);
      Reply(del.world, if del.answer.Failure? || |del.answer.value| > 0 then Failure(RemoveAllFailed) else Success(paths))
  }

  method RemoveAll(store: Bucket, paths: seq<string>) returns (r: Result<seq<string>, Exception>)
    requires store.Valid()
    modifies store
    ensures store.Valid()
    ensures var spec := RemoveAllSpec(old(store.State()), paths); store.State() == spec.world && r == spec.answer
  {
    if paths == [] {
      return Success([]);
    }
    var errors := store.RemoveAll(paths);
    if errors.Failure? || |errors.value| > 0 {
      r := Failure(RemoveAllFailed);
    } else {
      r := Success(paths);
    }
  }

  /** list(path): the one-level listing of the prefix, in the order the
      backend returns it. */
  function ListSpec(w: World, path: string): (r: Outcome<seq<string>>)
    ensures r.answer.Success? <==> |w.trace| !in w.faults
    ensures r.world.objects == w.objects
    ensures r.answer.Success? ==> (StrictlySorted(r.answer.value)
                                   && forall e :: e in r.answer.value <==> e in Listing(w.objects.Keys, path))
    ensures r.answer.Failure? ==> r.answer.error.S3ClientException? && r.answer.error.message == "Error getting list of objects for path: " + path
  {
    var listed := ListStep(w, path);
    Reply(listed.world, if listed.answer.Failure? then Failure(Wrap("Error getting list of objects for path: " + path, listed.answer.error))
                        else Success(listed.answer.value))
  }

  /** The items are copied one by one into a fresh list. */
  method List(store: Bucket, path: string) returns (r: Result<seq<string>, Exception>)
    requires store.Valid()
    modifies store
    ensures store.Valid()
    ensures var spec := ListSpec(old(store.State()), path); store.State() == spec.world && r == spec.answer
  {
    var items := store.List(path);
    if items.Failure? {
      r := Failure(Wrap("Error getting list of objects for path: " + path, items.error));
      return;
    }
    var list: seq<string> := [];
    var i := 0;
    while i < |items.value|
      invariant 0 <= i <= |items.value|
      invariant list == items.value[..i]
    {
      list := list + [items.value[i]];
      i := i + 1;
    }
    assert items.value[..i] == items.value;
    r := Success(list);
  }

  /** read(path): the whole content of an existing object. */
  function ReadSpec(w: World, path: string): (r: Outcome<seq<byte>>)
    ensures r.answer.Success? <==> path in w.objects && |w.trace| !in w.faults
    ensures r.answer.Success? ==> r.answer.value == w.objects[path]
    ensures r.world.objects == w.objects
    ensures r.answer.Failure? ==> r.answer.error.S3ClientException? && r.answer.error.message == "Error creating input stream for path: " + path
  {
    var got := GetStep(w, path);
    Reply(got.world, if got.answer.Failure? then Failure(Wrap("Error creating input stream for path: " + path, got.answer.error))
                     else Success(got.answer.value))
  }

  method Read(store: Bucket, path: string) returns (r: Result<seq<byte>, Exception>)
    requires store.Valid()
    modifies store
    ensures store.Valid()
    ensures var spec := ReadSpec(old(store.State()), path); store.State() == spec.world && r == spec.answer
  {
    var got := store.Get(path);
    if got.Failure? {
      r := Failure(Wrap("Error creating input stream for path: " + path, got.error));
    } else {
      r := Success(got.value);
    }
  }

  /** getSize(path): the size of an existing object. */
  function SizeSpec(w: World, path: string): (r: Outcome<nat>)
    ensures r.answer.Success? <==> path in w.objects && |w.trace| !in w.faults
    ensures r.answer.Success? ==> r.answer.value == |w.objects[path]|
    ensures r.world.objects == w.objects
    ensures r.answer.Failure? ==> r.answer.error.S3ClientException? && r.answer.error.message == "Error getting size: " + path
  {
    var stat := StatStep(w, path);
    Reply(stat.world, if stat.answer.Failure? then Failure(Wrap("Error getting size: " + path, stat.answer.error))
                      else Success(stat.answer.value))
  }

  method GetSize(store: Bucket, path: string) returns (r: Result<nat, Exception>)
    requires store.Valid()
    modifies store
    ensures store.Valid()
    ensures var spec := SizeSpec(old(store.State()), path); store.State() == spec.world && r == spec.answer
  {
    var stat := store.Stat(path);
    if stat.Failure? {
      r := Failure(Wrap("Error getting size: " + path, stat.error));
    } else {
      r := Success(stat.value);
    }
  }

  /** Where the try block of an append stopped: the state, the upload id
      it had obtained (if any), and what it returned or threw. */
  datatype Attempt = Attempt(world: World, uploadId: Option<UploadId>, outcome: Result<string, Exception>)

  /** The try block of append: write a new object when the listing of the
      path is empty; rewrite objects up to 5 MiB as old content followed by
      the new data; append to larger ones on the server, by a multipart
      upload whose part 1 copies the object and whose part 2 is the data. */
  function TryAppend(w: World, path: string, data: seq<byte>): Attempt {
    var listed := ListSpec(w, path);
    if listed.answer.Failure? then Attempt(listed.world, None, Failure(listed.answer.error))
    else if listed.answer.value == [] then
      var written := WriteSpec(listed.world, path, data);
      Attempt(written.world, None, written.answer)
    else TryExisting(listed.world, path, data)
  }

  /** Something is listed under the path: the branch follows its size. */
  function TryExisting(w: World, path: string, data: seq<byte>): Attempt {
    var size := SizeSpec(w, path);
    if size.answer.Failure? then Attempt(size.world, None, Failure(size.answer.error))
    else if size.answer.value <= MinMultipartSize then TryRewrite(size.world, path, data)
    else TryMultipart(size.world, path, data)
  }

  /** The client-side branch: read the object and write it back followed by
      the data. */
  function TryRewrite(w: World, path: string, data: seq<byte>): Attempt {
    var original := ReadSpec(w, path);
    if original.answer.Failure? then Attempt(original.world, None, Failure(original.answer.error))
    else
      var written := WriteSpec(original.world, path, original.answer.value + data);
      Attempt(written.world, None, written.answer)
  }

  /** The server-side branch: open an upload, then send its parts. */
  function TryMultipart(w: World, path: string, data: seq<byte>): Attempt {
    var created := CreateStep(w, path);
    if created.answer.Failure? then Attempt(created.world, None, Failure(SdkException(created.answer.error)))
    else TryParts(created.world, path, created.answer.value, data)
  }

  /** Both parts are dispatched before either is awaited, so part 2 is sent
      even when part 1 fails; part 1 is awaited first, so its failure is the
      one reported. */
  function TryParts(w: World, path: string, id: UploadId, data: seq<byte>): Attempt {
    var part1 := CopyPartStep(w, path, id, 1, path);
    var part2 := UploadPartStep(part1.world, path, id, 2, data);
    if part1.answer.Failure? then Attempt(part2.world, Some(id), Failure(SdkException(part1.answer.error)))
    else if part2.answer.Failure? then Attempt(part2.world, Some(id), Failure(SdkException(part2.answer.error)))
    else
      var done := CompleteStep(part2.world, path, id, [CompletedPart(1, part1.answer.value), CompletedPart(2, part2.answer.value)]);
      Attempt(done.world, Some(id), if done.answer.Failure? then Failure(SdkException(done.answer.error)) else Success(done.answer.value))
  }

  /** The catch block: abort the upload if one was opened (its answer is
      ignored) and rethrow with the original failure as the cause. */
  function Caught(w: World, path: string, uploadId: Option<UploadId>, e: Exception): Outcome<string> {
    var after := if uploadId.Some? then AbortStep(w, path, uploadId.value).world else w;
    Reply(after, Failure(S3ClientException(AppendFailed(path), Some(e))))
  }

  /** append(path, is). */
  function AppendSpec(w: World, path: string, data: seq<byte>): Outcome<string> {
    var a := TryAppend(w, path, data);
    if a.outcome.Success? then Reply(a.world, a.outcome) else Caught(a.world, path, a.uploadId, a.outcome.error)
  }

  /** append as its contract describes it: the object is created when it
      does not exist. The listing decides whether the path itself exists,
      instead of whether anything starts with it. */
  function TryAppendIntended(w: World, path: string, data: seq<byte>): Attempt {
    var listed := ListSpec(w, path);
    if listed.answer.Failure? then Attempt(listed.world, None, Failure(listed.answer.error))
    else if path !in listed.answer.value then
      var written := WriteSpec(listed.world, path, data);
      Attempt(written.world, None, written.answer)
    else TryExisting(listed.world, path, data)
  }

  function AppendIntended(w: World, path: string, data: seq<byte>): Outcome<string> {
    var a := TryAppendIntended(w, path, data);
    if a.outcome.Success? then Reply(a.world, a.outcome) else Caught(a.world, path, a.uploadId, a.outcome.error)
  }

  method Append(store: Bucket, path: string, data: seq<byte>) returns (r: Result<string, Exception>)
    requires store.Valid()
    modifies store
    ensures store.Valid()
    ensures var spec := AppendSpec(old(store.State()), path, data); store.State() == spec.world && r == spec.answer
  {
    ghost var w := store.State();
    var uploadId: Option<UploadId> := None;
    var caught: Exception;
    label Try: {
      var listed := List(store, path);
      if listed.Failure? {
        caught := listed.error;
        break Try;
      }
      if listed.value == [] {
        r := Write(store, path, data);
        if r.Failure? {
          caught := r.error;
          break Try;
        }
        return;
      }
      var size := GetSize(store, path);
      if size.Failure? {
        caught := size.error;
        break Try;
      }
      if size.value <= MinMultipartSize {
        var original := Read(store, path);
        if original.Failure? {
          caught := original.error;
          break Try;
        }
        r := Write(store, path, original.value + data);
        if r.Failure? {
          caught := r.error;
          break Try;
        }
        return;
      }
      var multipart := store.Create(path);
      if multipart.Failure? {
        caught := SdkException(multipart.error);
        break Try;
      }
      uploadId := Some(multipart.value);
      ghost var session := store.State();
      var part1 := store.CopyPart(path, multipart.value, 1, path);
      var part2 := store.UploadPartData(path, multipart.value, 2, data);
      if part1.Failure? {
        caught := SdkException(part1.error);
        break Try;
      }
      if part2.Failure? {
        caught := SdkException(part2.error);
        break Try;
      }
      var result := store.Complete(path, multipart.value, [CompletedPart(1, part1.value), CompletedPart(2, part2.value)]);
      if result.Failure? {
        caught := SdkException(result.error);
        break Try;
      }
      assert TryParts(session, path, multipart.value, data) == Attempt(store.State(), uploadId, Success(result.value));
      r := Success(result.value);
      return;
    }
    assert TryAppend(w, path, data) == Attempt(store.State(), uploadId, Failure(caught));
    if uploadId.Some? {
      var _ := store.Abort(path, uploadId.value);
    }
    r := Failure(S3ClientException(AppendFailed(path), Some(caught)));
  }
}
