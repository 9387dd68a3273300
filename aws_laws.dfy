/** What AwsS3Client.append promises, proved about its model: it leaves the
    same objects as MinioS3Client's append and succeeds or fails with it,
    and it never sends the data part of an upload before the copy of the
    object has succeeded. */
module AwsLaws {
  import opened Types
  import opened Keys
  import opened ObjectStore
  import Minio
  import Aws
  import opened MinioLaws

  /** Two try blocks that leave the same objects, the same upload id and
      the same outcome up to the wording of the exceptions around the
      SDK's error. */
  predicate Agree(m: Minio.Attempt, a: Minio.Attempt) {
    && m.world.objects == a.world.objects
    && m.world.faults == a.world.faults
    && m.uploadId == a.uploadId
    && (m.outcome.Success? <==> a.outcome.Success?)
    && (m.outcome.Success? ==> m.outcome.value == a.outcome.value)
    && (m.outcome.Failure? ==> RootCause(m.outcome.error) == RootCause(a.outcome.error))
  }

  lemma PartsAgree(w: World, path: string, id: UploadId, data: seq<byte>)
    ensures Agree(Minio.TryParts(w, path, id, data), Aws.TryParts(w, path, id, data))
  {
    var part1 := CopyPartStep(w, path, id, 1, path);
    if part1.answer.Success? {
      assert Minio.TryParts(w, path, id, data) == Aws.TryParts(w, path, id, data);
    }
  }

  lemma RewriteAgree(w: World, path: string, data: seq<byte>)
    ensures Agree(Minio.TryRewrite(w, path, data), Aws.TryRewrite(w, path, data))
  {
  }

  lemma ExistingAgree(w: World, path: string, data: seq<byte>)
    ensures Agree(Minio.TryExisting(w, path, data), Aws.TryExisting(w, path, data))
  {
    var size := Minio.SizeSpec(w, path);
    if size.answer.Success? {
      if size.answer.value <= MinMultipartSize {
        RewriteAgree(size.world, path, data);
      } else {
        var created := CreateStep(size.world, path);
        if created.answer.Success? {
          PartsAgree(created.world, path, created.answer.value, data);
        }
      }
    }
  }

  /** Both clients' appends leave the same objects, succeed together with
      the same result, and fail with the same SDK error at the root. */
  lemma AppendsAgree(w: World, path: string, data: seq<byte>)
    ensures var m := Minio.AppendSpec(w, path, data);
            var a := Aws.AppendSpec(w, path, data);
            && m.world.objects == a.world.objects
            && (m.answer.Success? <==> a.answer.Success?)
            && (m.answer.Success? ==> m.answer.value == a.answer.value)
            && (m.answer.Failure? ==> RootCause(m.answer.error) == RootCause(a.answer.error))
  {
    var listed := Minio.ListSpec(w, path);
    if listed.answer.Success? && listed.answer.value != [] {
      ExistingAgree(listed.world, path, data);
      assert Agree(Minio.TryAppend(w, path, data), Aws.TryAppend(w, path, data));
    }
  }

  /** On success the object holds its old content followed by the data; on
      failure no object changed and the exception is the append's own. */
  lemma AppendOutcome(w: World, path: string, data: seq<byte>)
    ensures var r := Aws.AppendSpec(w, path, data);
            && (r.answer.Success? ==> r.answer.value == path && r.world.objects == w.objects[path := Content(w.objects, path) + data])
            && (r.answer.Failure? ==> (r.world.objects == w.objects
                                       && r.answer.error.S3ClientException?
                                       && r.answer.error.message == Minio.AppendFailed(path)
                                       && r.answer.error.cause.Some?))
  {
    AppendsAgree(w, path, data);
    MinioLaws.AppendOutcome(w, path, data);
  }

  /** Over a reliable connection an append of a non-empty path succeeds
      exactly when the path is appendable, as for MinioS3Client. */
  lemma AppendLive(w: World, path: string, data: seq<byte>)
    requires Reliable(w, 6) && path != ""
    ensures Aws.AppendSpec(w, path, data).answer.Success? <==> Appendable(w.objects, path)
  {
    AppendsAgree(w, path, data);
    MinioLaws.AppendLive(w, path, data);
  }

  /** The corrected append of this client creates the object when only
      longer keys start with its path, and extends it otherwise. */
  lemma AppendIntendedCreates(w: World, path: string, data: seq<byte>)
    requires Reliable(w, 6) && path != ""
    ensures var r := Aws.AppendIntended(w, path, data);
            && r.answer == Success(path)
            && r.world.objects == w.objects[path := Content(w.objects, path) + data]
  {
    var listed := Minio.ListSpec(w, path);
    assert |w.trace| !in w.faults;
    ListedItself(w.objects.Keys, path);
    if path !in listed.answer.value {
      assert Content(w.objects, path) + data == data;
      assert |listed.world.trace| !in listed.world.faults;
    } else {
      assert Aws.TryAppendIntended(w, path, data) == Aws.TryExisting(listed.world, path, data);
      ExistingLive(listed.world, path, data);
      ExistingOutcome(listed.world, path, data);
      ExistingAgree(listed.world, path, data);
    }
  }

  /** No data part is sent before a copy of the object has succeeded. */
  predicate CopiedFirst(evs: seq<Event>)
    decreases |evs|
  {
    evs == [] || (!evs[0].call.UploadPart? && ((evs[0].call.UploadPartCopy? && evs[0].error.None?) || CopiedFirst(evs[1..])))
  }

  lemma {:induction false} CopiedFirstMeans(evs: seq<Event>)
    ensures CopiedFirst(evs) <==> forall i | 0 <= i < |evs| && evs[i].call.UploadPart? ::
                                    exists j | 0 <= j < i :: evs[j].call.UploadPartCopy? && evs[j].error.None?
    decreases |evs|
  {
    if evs != [] {
      CopiedFirstMeans(evs[1..]);
      var copied := evs[0].call.UploadPartCopy? && evs[0].error.None?;
      if CopiedFirst(evs) {
        forall i | 0 <= i < |evs| && evs[i].call.UploadPart?
          ensures exists j | 0 <= j < i :: evs[j].call.UploadPartCopy? && evs[j].error.None?
        {
          if copied {
            assert 0 < i;
          } else {
            assert evs[1..][i - 1] == evs[i];
            var j :| 0 <= j < i - 1 && evs[1..][j].call.UploadPartCopy? && evs[1..][j].error.None?;
            assert evs[j + 1] == evs[1..][j];
          }
        }
      }
      if forall i | 0 <= i < |evs| && evs[i].call.UploadPart? :: exists j | 0 <= j < i :: evs[j].call.UploadPartCopy? && evs[j].error.None? {
        assert !evs[0].call.UploadPart?;
        if !copied {
          forall i | 0 <= i < |evs[1..]| && evs[1..][i].call.UploadPart?
            ensures exists j | 0 <= j < i :: evs[1..][j].call.UploadPartCopy? && evs[1..][j].error.None?
          {
            assert evs[i + 1] == evs[1..][i];
            var j :| 0 <= j < i + 1 && evs[j].call.UploadPartCopy? && evs[j].error.None?;
            assert j != 0;
            assert evs[1..][j - 1] == evs[j];
          }
        }
      }
    }
  }

  lemma CopiedFirstCons(e: Event, rest: seq<Event>)
    ensures CopiedFirst([e] + rest) <==> !e.call.UploadPart? && ((e.call.UploadPartCopy? && e.error.None?) || CopiedFirst(rest))
  {
    assert ([e] + rest)[0] == e;
    assert ([e] + rest)[1..] == rest;
  }

  /** The requests that send the parts and complete the upload. */
  lemma PartsEvents(w: World, path: string, id: UploadId, data: seq<byte>) returns (evs: seq<Event>)
    ensures var a := Aws.TryParts(w, path, id, data);
            && a.world.trace == w.trace + evs
            && AllFit(evs, w.objects, path, data) && !Opened(evs) && CopiedFirst(evs)
            && a.uploadId == Some(id)
            && (a.outcome.Success? <==> FirstError(evs).None?)
            && (a.outcome.Failure? ==> a.outcome.error == SdkException(FirstError(evs).value))
  {
    var part1 := CopyPartStep(w, path, id, 1, path);
    var e1 := Event(UploadPartCopy(path, id, 1, path), ErrorOf(part1.answer));
    var rest: seq<Event>;
    if part1.answer.Failure? {
      rest := [];
      assert Aws.TryParts(w, path, id, data) == Minio.Attempt(part1.world, Some(id), Failure(SdkException(part1.answer.error)));
    } else {
      var part2 := UploadPartStep(part1.world, path, id, 2, data);
      var e2 := Event(UploadPart(path, id, 2, data), ErrorOf(part2.answer));
      var tail: seq<Event>;
      if part2.answer.Failure? {
        tail := [];
        assert Aws.TryParts(w, path, id, data) == Minio.Attempt(part2.world, Some(id), Failure(SdkException(part2.answer.error)));
      } else {
        var listed := [CompletedPart(1, part1.answer.value), CompletedPart(2, part2.answer.value)];
        var done := CompleteStep(part2.world, path, id, listed);
        tail := [Event(CompleteMultipartUpload(path, id, listed), ErrorOf(done.answer))];
        Cons(tail[0], [], w.objects, path, data);
        assert [tail[0]] + [] == tail;
        assert Aws.TryParts(w, path, id, data) == Minio.Attempt(done.world, Some(id), if done.answer.Failure? then Failure(SdkException(done.answer.error)) else Success(done.answer.value));
      }
      Cons(e2, tail, w.objects, path, data);
      rest := [e2] + tail;
      Assoc(w.trace, [e1], [e2]);
      Assoc(w.trace + [e1], [e2], tail);
    }
    Cons(e1, rest, w.objects, path, data);
    CopiedFirstCons(e1, rest);
    evs := [e1] + rest;
    Assoc(w.trace, [e1], rest);
  }

  /** The requests of the server-side branch. */
  lemma MultipartEvents(w: World, path: string, data: seq<byte>) returns (evs: seq<Event>)
    requires path in w.objects && |w.objects[path]| > MinMultipartSize
    ensures var a := Aws.TryMultipart(w, path, data);
            && a.world.trace == w.trace + evs
            && AllFit(evs, w.objects, path, data) && CopiedFirst(evs)
            && (a.uploadId.Some? <==> Opened(evs))
            && (a.uploadId.Some? ==> a.uploadId.value == w.nextUploadId)
            && (a.outcome.Success? <==> FirstError(evs).None?)
            && (a.outcome.Failure? ==> a.outcome.error == SdkException(FirstError(evs).value))
  {
    var created := CreateStep(w, path);
    var e0 := Event(CreateMultipartUpload(path), ErrorOf(created.answer));
    var rest: seq<Event>;
    if created.answer.Failure? {
      rest := [];
      assert Aws.TryMultipart(w, path, data) == Minio.Attempt(created.world, None, Failure(SdkException(created.answer.error)));
    } else {
      rest := PartsEvents(created.world, path, created.answer.value, data);
      assert Aws.TryMultipart(w, path, data) == Aws.TryParts(created.world, path, created.answer.value, data);
    }
    Cons(e0, rest, w.objects, path, data);
    CopiedFirstCons(e0, rest);
    evs := [e0] + rest;
    Assoc(w.trace, [e0], rest);
  }

  /** The requests of the client-side branch. */
  lemma RewriteEvents(w: World, path: string, data: seq<byte>) returns (evs: seq<Event>)
    requires path in w.objects && |w.objects[path]| <= MinMultipartSize
    ensures var a := Aws.TryRewrite(w, path, data);
            && a.world.trace == w.trace + evs
            && AllFit(evs, w.objects, path, data) && !Opened(evs) && CopiedFirst(evs)
            && a.uploadId.None?
            && (a.outcome.Success? <==> FirstError(evs).None?)
            && (a.outcome.Failure? ==> RootCause(a.outcome.error) == SdkException(FirstError(evs).value))
  {
    var got := GetStep(w, path);
    var e0 := Event(GetObject(path), ErrorOf(got.answer));
    var rest: seq<Event>;
    if got.answer.Failure? {
      rest := [];
      assert Aws.TryRewrite(w, path, data) == Minio.Attempt(got.world, None, Failure(Minio.Wrap("Error creating input stream for path: " + path, got.answer.error)));
    } else {
      var content := got.answer.value + data;
      var put := PutStep(got.world, path, content);
      rest := [Event(PutObject(path, content), put.answer)];
      Cons(rest[0], [], w.objects, path, data);
      CopiedFirstCons(rest[0], []);
      assert [rest[0]] + [] == rest;
      assert Aws.TryRewrite(w, path, data) == Minio.Attempt(put.world, None, Aws.WriteSpec(got.world, path, content).answer);
    }
    Cons(e0, rest, w.objects, path, data);
    CopiedFirstCons(e0, rest);
    evs := [e0] + rest;
    Assoc(w.trace, [e0], rest);
  }

  /** The requests issued once something is listed under the path. */
  lemma ExistingEvents(w: World, path: string, data: seq<byte>) returns (evs: seq<Event>)
    ensures var a := Aws.TryExisting(w, path, data);
            && a.world.trace == w.trace + evs
            && AllFit(evs, w.objects, path, data) && CopiedFirst(evs)
            && (a.uploadId.Some? <==> Opened(evs))
            && (a.uploadId.Some? ==> a.uploadId.value == w.nextUploadId)
            && (a.outcome.Success? <==> FirstError(evs).None?)
            && (a.outcome.Failure? ==> RootCause(a.outcome.error) == SdkException(FirstError(evs).value))
  {
    var stat := StatStep(w, path);
    var e0 := Event(StatObject(path), ErrorOf(stat.answer));
    var rest: seq<Event>;
    if stat.answer.Failure? {
      rest := [];
      assert Aws.TryExisting(w, path, data) == Minio.Attempt(stat.world, None, Failure(Minio.Wrap("Error getting size: " + path, stat.answer.error)));
    } else if stat.answer.value > MinMultipartSize {
      rest := MultipartEvents(stat.world, path, data);
      assert Aws.TryExisting(w, path, data) == Aws.TryMultipart(stat.world, path, data);
    } else {
      rest := RewriteEvents(stat.world, path, data);
      assert Aws.TryExisting(w, path, data) == Aws.TryRewrite(stat.world, path, data);
    }
    Cons(e0, rest, w.objects, path, data);
    CopiedFirstCons(e0, rest);
    evs := [e0] + rest;
    Assoc(w.trace, [e0], rest);
  }

  /** The requests of the try block. */
  lemma TryAppendEvents(w: World, path: string, data: seq<byte>) returns (evs: seq<Event>)
    ensures var a := Aws.TryAppend(w, path, data);
            && a.world.trace == w.trace + evs
            && |evs| > 0 && evs[0].call == ListObjects(path)
            && AllFit(evs, w.objects, path, data) && CopiedFirst(evs)
            && (a.uploadId.Some? <==> Opened(evs))
            && (a.uploadId.Some? ==> a.uploadId.value == w.nextUploadId)
            && (a.outcome.Success? <==> FirstError(evs).None?)
            && (a.outcome.Failure? ==> RootCause(a.outcome.error) == SdkException(FirstError(evs).value))
  {
    var listed := ListStep(w, path);
    var e0 := Event(ListObjects(path), ErrorOf(listed.answer));
    var rest: seq<Event>;
    if listed.answer.Failure? {
      rest := [];
      assert Aws.TryAppend(w, path, data) == Minio.Attempt(listed.world, None, Failure(Minio.Wrap("Error getting list of objects for path: " + path, listed.answer.error)));
    } else if listed.answer.value == [] {
      var put := PutStep(listed.world, path, data);
      rest := [Event(PutObject(path, data), put.answer)];
      if path in w.objects {
        ListingCovers(w.objects.Keys, path, path);
      }
      assert Content(w.objects, path) + data == data;
      Cons(rest[0], [], w.objects, path, data);
      CopiedFirstCons(rest[0], []);
      assert [rest[0]] + [] == rest;
      assert Aws.TryAppend(w, path, data) == Minio.Attempt(put.world, None, Aws.WriteSpec(listed.world, path, data).answer);
    } else {
      rest := ExistingEvents(listed.world, path, data);
      assert Aws.TryAppend(w, path, data) == Aws.TryExisting(listed.world, path, data);
    }
    Cons(e0, rest, w.objects, path, data);
    CopiedFirstCons(e0, rest);
    evs := [e0] + rest;
    Assoc(w.trace, [e0], rest);
  }

  /** The requests one append issues, as for MinioS3Client, and in
      addition no data part is sent before the copy of the object has
      succeeded. */
  lemma AppendRequests(w: World, path: string, data: seq<byte>) returns (tried: seq<Event>, aborted: seq<Event>)
    ensures var r := Aws.AppendSpec(w, path, data);
            && r.world.trace == w.trace + tried + aborted
            && |tried| > 0 && tried[0].call == ListObjects(path)
            && (forall i | 0 <= i < |tried| :: Fits(tried[i], w.objects, path, data) && !tried[i].call.AbortMultipartUpload?)
            && (forall i | 0 <= i < |tried| && tried[i].call.UploadPart? ::
                  exists j | 0 <= j < i :: tried[j].call.UploadPartCopy? && tried[j].error.None?)
            && (r.answer.Success? <==> FirstError(tried).None?)
            && (r.answer.Failure? ==> RootCause(r.answer.error) == SdkException(FirstError(tried).value))
            && (aborted != [] <==> r.answer.Failure? && Opened(tried))
            && (aborted != [] ==> |aborted| == 1 && aborted[0].call == AbortMultipartUpload(path, w.nextUploadId))
  {
    tried := TryAppendEvents(w, path, data);
    AllFitMeans(tried, w.objects, path, data);
    CopiedFirstMeans(tried);
    var a := Aws.TryAppend(w, path, data);
    if a.outcome.Failure? && a.uploadId.Some? {
      var ab := AbortStep(a.world, path, a.uploadId.value);
      aborted := [Event(AbortMultipartUpload(path, a.uploadId.value), ab.answer)];
      assert Aws.AppendSpec(w, path, data).world == ab.world;
      Assoc(w.trace, tried, aborted);
    } else {
      aborted := [];
      assert w.trace + tried + [] == w.trace + tried;
    }
  }

  /** When the copy of the object fails, AwsS3Client sends nothing more,
      while MinioS3Client has already sent the data part. */
  lemma FailedCopy(w: World, path: string, id: UploadId, data: seq<byte>)
    requires CopyPartStep(w, path, id, 1, path).answer.Failure?
    ensures var e := CopyPartStep(w, path, id, 1, path).answer.error;
            && Aws.TryParts(w, path, id, data).world.trace == w.trace + [Event(UploadPartCopy(path, id, 1, path), Some(e))]
            && |Minio.TryParts(w, path, id, data).world.trace| == |w.trace| + 2
            && Minio.TryParts(w, path, id, data).world.trace[|w.trace| + 1].call == UploadPart(path, id, 2, data)
  {
  }
}
