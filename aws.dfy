/** AwsS3Client: the AWS SDK variant of the client. It overrides only write
    and append; list, getSize and read are MinioS3Client's. Its append takes
    the same branches as MinioS3Client's but issues the multipart requests
    one after another: the data part is sent only once the copy of the
    object has succeeded, and an abort is awaited. */
module Aws {
  import opened Types
  import opened ObjectStore
  import Minio

  /** write(path, is): one PutObject of the whole stream. */
  function WriteSpec(w: World, path: string, data: seq<byte>): (r: Minio.Outcome<string>)
    ensures r.answer.Success? <==> path != "" && |w.trace| !in w.faults
    ensures r.answer.Success? ==> r.answer.value == path && r.world.objects == w.objects[path := data]
    ensures r.answer.Failure? ==> (r.world.objects == w.objects
                                   && r.answer.error.S3ClientException? && r.answer.error.message == "Cannot write file: " + path)
  {
    var put := PutStep(w, path, data);
    Reply(put.world, if put.answer.Some? then Failure(Minio.Wrap("Cannot write file: " + path, put.answer.value)) else Success(path))
  }

  method Write(store: Bucket, path: string, data: seq<byte>) returns (r: Result<string, Exception>)
    requires store.Valid()
    modifies store
    ensures store.Valid()
    ensures var spec := WriteSpec(old(store.State()), path, data); store.State() == spec.world && r == spec.answer
  {
    var err := store.Put(path, data);
    if err.Some? {
      r := Failure(Minio.Wrap("Cannot write file: " + path, err.value));
    } else {
      r := Success(path);
    }
  }

  /** The try block of append: as MinioS3Client's, with this client's
      write. */
  function TryAppend(w: World, path: string, data: seq<byte>): Minio.Attempt {
    var listed := Minio.ListSpec(w, path);
    if listed.answer.Failure? then Minio.Attempt(listed.world, None, Failure(listed.answer.error))
    else if listed.answer.value == [] then
      var written := WriteSpec(listed.world, path, data);
      Minio.Attempt(written.world, None, written.answer)
    else TryExisting(listed.world, path, data)
  }

  /** Something is listed under the path: above 5 MiB the object is
      extended on the server, otherwise it is read and written back. */
  function TryExisting(w: World, path: string, data: seq<byte>): Minio.Attempt {
    var size := Minio.SizeSpec(w, path);
    if size.answer.Failure? then Minio.Attempt(size.world, None, Failure(size.answer.error))
    else if size.answer.value > MinMultipartSize then TryMultipart(size.world, path, data)
    else TryRewrite(size.world, path, data)
  }

  function TryRewrite(w: World, path: string, data: seq<byte>): Minio.Attempt {
    var original := Minio.ReadSpec(w, path);
    if original.answer.Failure? then Minio.Attempt(original.world, None, Failure(original.answer.error))
    else
      var written := WriteSpec(original.world, path, original.answer.value + data);
      Minio.Attempt(written.world, None, written.answer)
  }

  function TryMultipart(w: World, path: string, data: seq<byte>): Minio.Attempt {
    var created := CreateStep(w, path);
    if created.answer.Failure? then Minio.Attempt(created.world, None, Failure(SdkException(created.answer.error)))
    else TryParts(created.world, path, created.answer.value, data)
  }

  /** Each request is awaited before the next is sent. */
  function TryParts(w: World, path: string, id: UploadId, data: seq<byte>): Minio.Attempt {
    var part1 := CopyPartStep(w, path, id, 1, path);
    if part1.answer.Failure? then Minio.Attempt(part1.world, Some(id), Failure(SdkException(part1.answer.error)))
    else
      var part2 := UploadPartStep(part1.world, path, id, 2, data);
      if part2.answer.Failure? then Minio.Attempt(part2.world, Some(id), Failure(SdkException(part2.answer.error)))
      else
        var done := CompleteStep(part2.world, path, id, [CompletedPart(1, part1.answer.value), CompletedPart(2, part2.answer.value)]);
        Minio.Attempt(done.world, Some(id), if done.answer.Failure? then Failure(SdkException(done.answer.error)) else Success(done.answer.value))
  }

  /** append(path, is); the catch block is MinioS3Client's. */
  function AppendSpec(w: World, path: string, data: seq<byte>): Minio.Outcome<string> {
    var a := TryAppend(w, path, data);
    if a.outcome.Success? then Reply(a.world, a.outcome) else Minio.Caught(a.world, path, a.uploadId, a.outcome.error)
  }

  /** The append evidently intended, as for MinioS3Client: the write
      branch is taken when the path itself is not listed. */
  function TryAppendIntended(w: World, path: string, data: seq<byte>): Minio.Attempt {
    var listed := Minio.ListSpec(w, path);
    if listed.answer.Failure? then Minio.Attempt(listed.world, None, Failure(listed.answer.error))
    else if path !in listed.answer.value then
      var written := WriteSpec(listed.world, path, data);
      Minio.Attempt(written.world, None, written.answer)
    else TryExisting(listed.world, path, data)
  }

  function AppendIntended(w: World, path: string, data: seq<byte>): Minio.Outcome<string> {
    var a := TryAppendIntended(w, path, data);
    if a.outcome.Success? then Reply(a.world, a.outcome) else Minio.Caught(a.world, path, a.uploadId, a.outcome.error)
  }

  method Append(store: Bucket, path: string, data: seq<byte>) returns (r: Result<string, Exception>)
    requires store.Valid()
    modifies store
    ensures store.Valid()
    ensures var spec := AppendSpec(old(store.State()), path, data); store.State() == spec.world && r == spec.answer
  {
    ghost var w := store.State();
    var uploadId: Option<UploadId> := None;
    var caught: Exception;
    label Try: {
      var listed := Minio.List(store, path);
      if listed.Failure? {
        caught := listed.error;
        break Try;
      }
      if listed.value == [] {
        r := Write(store, path, data);
        if r.Failure? {
          caught := r.error;
          break Try;
        }
        return;
      }
      var size := Minio.GetSize(store, path);
      if size.Failure? {
        caught := size.error;
        break Try;
      }
      if size.value > MinMultipartSize {
        var created := store.Create(path);
        if created.Failure? {
          caught := SdkException(created.error);
          break Try;
        }
        uploadId := Some(created.value);
        ghost var session := store.State();
        var originalETag := store.CopyPart(path, created.value, 1, path);
        if originalETag.Failure? {
          caught := SdkException(originalETag.error);
          break Try;
        }
        var appendedETag := store.UploadPartData(path, created.value, 2, data);
        if appendedETag.Failure? {
          caught := SdkException(appendedETag.error);
          break Try;
        }
        var completed := store.Complete(path, created.value, [CompletedPart(1, originalETag.value), CompletedPart(2, appendedETag.value)]);
        if completed.Failure? {
          caught := SdkException(completed.error);
          break Try;
        }
        assert TryParts(session, path, created.value, data) == Minio.Attempt(store.State(), uploadId, Success(completed.value));
        r := Success(completed.value);
        return;
      } else {
        var original := Minio.Read(store, path);
        if original.Failure? {
          caught := original.error;
          break Try;
        }
        r := Write(store, path, original.value + data);
        if r.Failure? {
          caught := r.error;
          break Try;
        }
        return;
      }
    }
    assert TryAppend(w, path, data) == Minio.Attempt(store.State(), uploadId, Failure(caught));
    if uploadId.Some? {
      var _ := store.Abort(path, uploadId.value);
    }
    r := Failure(S3ClientException(Minio.AppendFailed(path), Some(caught)));
  }
}
