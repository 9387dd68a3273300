/** What MinioS3Client.append promises, proved about its model: the
    object grows by exactly the appended data or stays as it was, the
    failure names the request that went wrong, an opened upload is aborted
    exactly when the append fails, and the branch taken follows the size
    of the object. */
module MinioLaws {
  import opened Types
  import opened Keys
  import opened ObjectStore
  import opened Minio

  /** An append can succeed: the object exists, or nothing is listed under
      its path. */
  predicate Appendable(objects: map<string, seq<byte>>, path: string) {
    path in objects || forall k | k in objects :: !IsPrefix(path, k)
  }

  /** On success the object holds its old content followed by the data; on
      failure no object changed and the exception is the append's own,
      wrapping the failure that stopped it. */
  lemma AppendOutcome(w: World, path: string, data: seq<byte>)
    ensures var r := AppendSpec(w, path, data);
            && r.world.faults == w.faults
            && (r.answer.Success? ==> r.answer.value == path && r.world.objects == w.objects[path := Content(w.objects, path) + data])
            && (r.answer.Failure? ==> (r.world.objects == w.objects
                                       && r.answer.error.S3ClientException?
                                       && r.answer.error.message == AppendFailed(path)
                                       && r.answer.error.cause.Some?))
  {
    TryAppendOutcome(w, path, data);
  }

  lemma TryAppendOutcome(w: World, path: string, data: seq<byte>)
    ensures var a := TryAppend(w, path, data);
            && a.world.faults == w.faults
            && (a.outcome.Success? ==> a.outcome.value == path && a.world.objects == w.objects[path := Content(w.objects, path) + data])
            && (a.outcome.Failure? ==> a.world.objects == w.objects)
  {
    var listed := ListSpec(w, path);
    if listed.answer.Success? && listed.answer.value == [] {
      if path in w.objects {
        ListingCovers(w.objects.Keys, path, path);
      }
      assert Content(w.objects, path) + data == data;
    } else if listed.answer.Success? {
      ExistingOutcome(listed.world, path, data);
    }
  }

  lemma ExistingOutcome(w: World, path: string, data: seq<byte>)
    ensures var a := TryExisting(w, path, data);
            && a.world.faults == w.faults
            && (a.outcome.Success? ==> a.outcome.value == path && path in w.objects && a.world.objects == w.objects[path := w.objects[path] + data])
            && (a.outcome.Failure? ==> a.world.objects == w.objects)
  {
    var size := SizeSpec(w, path);
    if size.answer.Success? && size.answer.value > MinMultipartSize {
      MultipartOutcome(size.world, path, data);
    }
  }

  lemma MultipartOutcome(w: World, path: string, data: seq<byte>)
    requires path in w.objects && |w.objects[path]| > MinMultipartSize
    ensures var a := TryMultipart(w, path, data);
            && a.world.faults == w.faults
            && (a.outcome.Success? ==> a.outcome.value == path && a.world.objects == w.objects[path := w.objects[path] + data])
            && (a.outcome.Failure? ==> a.world.objects == w.objects)
  {
    var created := CreateStep(w, path);
    if created.answer.Success? {
      var id := created.answer.value;
      var part1 := CopyPartStep(created.world, path, id, 1, path);
      var part2 := UploadPartStep(part1.world, path, id, 2, data);
      if part1.answer.Success? && part2.answer.Success? {
        var listed := [CompletedPart(1, part1.answer.value), CompletedPart(2, part2.answer.value)];
        var parts := part2.world.sessions[id].parts;
        assert parts == map[1 := Part(part1.answer.value, w.objects[path]), 2 := Part(part2.answer.value, data)];
        AssemblePair(parts, listed[0], listed[1]);
      }
    }
  }

  /** The request concerns the appended object, and the multipart requests
      carry the part numbers the append uses. */
  predicate Targets(c: Call, path: string) {
    match c
    case ListObjects(prefix) => prefix == path
    case RemoveObjects(_) => false
    case UploadPartCopy(key, _, n, source) => key == path && source == path && n == 1
    case UploadPart(key, _, n, _) => key == path && n == 2
    case CompleteMultipartUpload(key, _, parts) => key == path && |parts| == 2 && parts[0].partNumber == 1 && parts[1].partNumber == 2
    case PutObject(key, _) => key == path
    case GetObject(key) => key == path
    case StatObject(key) => key == path
    case RemoveObject(key) => key == path
    case CreateMultipartUpload(key) => key == path
    case AbortMultipartUpload(key, _) => key == path
  }

  /** What one request of an append carries, given the object's old
      content: it concerns the object, a write carries the old content
      followed by the data, a part upload carries the data, and the object
      is read back only up to 5 MiB and copied on the server only above. */
  predicate Fits(e: Event, objects: map<string, seq<byte>>, path: string, data: seq<byte>) {
    && Targets(e.call, path)
    && (e.call.PutObject? ==> e.call.data == Content(objects, path) + data)
    && (e.call.UploadPart? ==> e.call.data == data)
    && (e.call.GetObject? ==> path in objects && |objects[path]| <= MinMultipartSize)
    && (e.call.CreateMultipartUpload? ==> path in objects && |objects[path]| > MinMultipartSize)
  }

  /** Every request of a run fits the append, and none is an abort. */
  predicate AllFit(evs: seq<Event>, objects: map<string, seq<byte>>, path: string, data: seq<byte>)
    decreases |evs|
  {
    evs == [] || (Fits(evs[0], objects, path, data) && !evs[0].call.AbortMultipartUpload? && AllFit(evs[1..], objects, path, data))
  }

  /** Some request of a run opened a multipart upload. */
  predicate Opened(evs: seq<Event>)
    decreases |evs|
  {
    evs != [] && ((evs[0].call.CreateMultipartUpload? && evs[0].error.None?) || Opened(evs[1..]))
  }

  function ErrorOf<T>(r: Result<T, ErrorCode>): Option<ErrorCode> {
    if r.Failure? then Some(r.error) else None
  }

  /** How the facts about a run of requests extend to one more request in
      front of it. */
  lemma Cons(e: Event, rest: seq<Event>, objects: map<string, seq<byte>>, path: string, data: seq<byte>)
    ensures AllFit([e] + rest, objects, path, data) <==> Fits(e, objects, path, data) && !e.call.AbortMultipartUpload? && AllFit(rest, objects, path, data)
    ensures Opened([e] + rest) <==> (e.call.CreateMultipartUpload? && e.error.None?) || Opened(rest)
    ensures FirstError([e] + rest) == if e.error.Some? then e.error else FirstError(rest)
  {
    assert ([e] + rest)[0] == e;
    assert ([e] + rest)[1..] == rest;
  }

  /** The requests that send the parts and complete the upload. */
  lemma PartsEvents(w: World, path: string, id: UploadId, data: seq<byte>) returns (evs: seq<Event>)
    ensures var a := TryParts(w, path, id, data);
            && a.world.trace == w.trace + evs
            && AllFit(evs, w.objects, path, data) && !Opened(evs)
            && a.uploadId == Some(id)
            && (a.outcome.Success? <==> FirstError(evs).None?)
            && (a.outcome.Failure? ==> a.outcome.error == SdkException(FirstError(evs).value))
  {
    var part1 := CopyPartStep(w, path, id, 1, path);
    var part2 := UploadPartStep(part1.world, path, id, 2, data);
    var e1 := Event(UploadPartCopy(path, id, 1, path), ErrorOf(part1.answer));
    var e2 := Event(UploadPart(path, id, 2, data), ErrorOf(part2.answer));
    var tail: seq<Event>;
    if part1.answer.Failure? || part2.answer.Failure? {
      tail := [];
      assert TryParts(w, path, id, data) == Attempt(part2.world, Some(id), Failure(SdkException(if part1.answer.Failure? then part1.answer.error else part2.answer.error)));
    } else {
      var listed := [CompletedPart(1, part1.answer.value), CompletedPart(2, part2.answer.value)];
      var done := CompleteStep(part2.world, path, id, listed);
      tail := [Event(CompleteMultipartUpload(path, id, listed), ErrorOf(done.answer))];
      Cons(tail[0], [], w.objects, path, data);
      assert [tail[0]] + [] == tail;
      assert TryParts(w, path, id, data) == Attempt(done.world, Some(id), if done.answer.Failure? then Failure(SdkException(done.answer.error)) else Success(done.answer.value));
    }
    Cons(e2, tail, w.objects, path, data);
    Cons(e1, [e2] + tail, w.objects, path, data);
    evs := [e1] + ([e2] + tail);
    Assoc(w.trace, [e1], [e2]);
    Assoc(w.trace + [e1], [e2], tail);
    Assoc(w.trace, [e1], [e2] + tail);
  }

  /** The requests of the server-side branch. */
  lemma MultipartEvents(w: World, path: string, data: seq<byte>) returns (evs: seq<Event>)
    requires path in w.objects && |w.objects[path]| > MinMultipartSize
    ensures var a := TryMultipart(w, path, data);
            && a.world.trace == w.trace + evs
            && AllFit(evs, w.objects, path, data)
            && (a.uploadId.Some? <==> Opened(evs))
            && (a.uploadId.Some? ==> a.uploadId.value == w.nextUploadId)
            && (a.outcome.Success? <==> FirstError(evs).None?)
            && (a.outcome.Failure? ==> a.outcome.error == SdkException(FirstError(evs).value))
  {
    var created := CreateStep(w, path);
    var e0 := Event(CreateMultipartUpload(path), ErrorOf(created.answer));
    var rest: seq<Event>;
    if created.answer.Failure? {
      rest := [];
      assert TryMultipart(w, path, data) == Attempt(created.world, None, Failure(SdkException(created.answer.error)));
    } else {
      rest := PartsEvents(created.world, path, created.answer.value, data);
      assert TryMultipart(w, path, data) == TryParts(created.world, path, created.answer.value, data);
    }
    Cons(e0, rest, w.objects, path, data);
    evs := [e0] + rest;
    Assoc(w.trace, [e0], rest);
  }

  /** The requests of the client-side branch. */
  lemma RewriteEvents(w: World, path: string, data: seq<byte>) returns (evs: seq<Event>)
    requires path in w.objects && |w.objects[path]| <= MinMultipartSize
    ensures var a := TryRewrite(w, path, data);
            && a.world.trace == w.trace + evs
            && AllFit(evs, w.objects, path, data) && !Opened(evs)
            && a.uploadId.None?
            && (a.outcome.Success? <==> FirstError(evs).None?)
            && (a.outcome.Failure? ==> RootCause(a.outcome.error) == SdkException(FirstError(evs).value))
  {
    var got := GetStep(w, path);
    var e0 := Event(GetObject(path), ErrorOf(got.answer));
    var rest: seq<Event>;
    if got.answer.Failure? {
      rest := [];
      assert TryRewrite(w, path, data) == Attempt(got.world, None, Failure(Wrap("Error creating input stream for path: " + path, got.answer.error)));
    } else {
      var content := got.answer.value + data;
      var put := PutStep(got.world, path, content);
      rest := [Event(PutObject(path, content), put.answer)];
      Cons(rest[0], [], w.objects, path, data);
      assert [rest[0]] + [] == rest;
      assert TryRewrite(w, path, data) == Attempt(put.world, None, WriteSpec(got.world, path, content).answer);
    }
    Cons(e0, rest, w.objects, path, data);
    evs := [e0] + rest;
    Assoc(w.trace, [e0], rest);
  }

  /** The requests issued once something is listed under the path. */
  lemma ExistingEvents(w: World, path: string, data: seq<byte>) returns (evs: seq<Event>)
    ensures var a := TryExisting(w, path, data);
            && a.world.trace == w.trace + evs
            && AllFit(evs, w.objects, path, data)
            && (a.uploadId.Some? <==> Opened(evs))
            && (a.uploadId.Some? ==> a.uploadId.value == w.nextUploadId)
            && (a.outcome.Success? <==> FirstError(evs).None?)
            && (a.outcome.Failure? ==> RootCause(a.outcome.error) == SdkException(FirstError(evs).value))
  {
    var stat := StatStep(w, path);
    var e0 := Event(StatObject(path), ErrorOf(stat.answer));
    var rest: seq<Event>;
    if stat.answer.Failure? {
      rest := [];
      assert TryExisting(w, path, data) == Attempt(stat.world, None, Failure(Wrap("Error getting size: " + path, stat.answer.error)));
    } else if stat.answer.value <= MinMultipartSize {
      rest := RewriteEvents(stat.world, path, data);
      assert TryExisting(w, path, data) == TryRewrite(stat.world, path, data);
    } else {
      rest := MultipartEvents(stat.world, path, data);
      assert TryExisting(w, path, data) == TryMultipart(stat.world, path, data);
    }
    Cons(e0, rest, w.objects, path, data);
    evs := [e0] + rest;
    Assoc(w.trace, [e0], rest);
  }

  /** The requests of the try block. */
  lemma TryAppendEvents(w: World, path: string, data: seq<byte>) returns (evs: seq<Event>)
    ensures var a := TryAppend(w, path, data);
            && a.world.trace == w.trace + evs
            && |evs| > 0 && evs[0].call == ListObjects(path)
            && AllFit(evs, w.objects, path, data)
            && (a.uploadId.Some? <==> Opened(evs))
            && (a.uploadId.Some? ==> a.uploadId.value == w.nextUploadId)
            && (a.outcome.Success? <==> FirstError(evs).None?)
            && (a.outcome.Failure? ==> RootCause(a.outcome.error) == SdkException(FirstError(evs).value))
  {
    var listed := ListStep(w, path);
    var e0 := Event(ListObjects(path), ErrorOf(listed.answer));
    var rest: seq<Event>;
    if listed.answer.Failure? {
      rest := [];
      assert TryAppend(w, path, data) == Attempt(listed.world, None, Failure(Wrap("Error getting list of objects for path: " + path, listed.answer.error)));
    } else if listed.answer.value == [] {
      var put := PutStep(listed.world, path, data);
      rest := [Event(PutObject(path, data), put.answer)];
      if path in w.objects {
        ListingCovers(w.objects.Keys, path, path);
      }
      assert Content(w.objects, path) + data == data;
      Cons(rest[0], [], w.objects, path, data);
      assert [rest[0]] + [] == rest;
      assert TryAppend(w, path, data) == Attempt(put.world, None, WriteSpec(listed.world, path, data).answer);
    } else {
      rest := ExistingEvents(listed.world, path, data);
      assert TryAppend(w, path, data) == TryExisting(listed.world, path, data);
    }
    Cons(e0, rest, w.objects, path, data);
    evs := [e0] + rest;
    Assoc(w.trace, [e0], rest);
  }

  /** A run fits an append exactly when each of its requests does and none
      is an abort. */
  lemma {:induction false} AllFitMeans(evs: seq<Event>, objects: map<string, seq<byte>>, path: string, data: seq<byte>)
    ensures AllFit(evs, objects, path, data) <==> forall i | 0 <= i < |evs| :: Fits(evs[i], objects, path, data) && !evs[i].call.AbortMultipartUpload?
    decreases |evs|
  {
    if evs != [] {
      AllFitMeans(evs[1..], objects, path, data);
      if AllFit(evs[1..], objects, path, data) && Fits(evs[0], objects, path, data) && !evs[0].call.AbortMultipartUpload? {
        forall i | 0 <= i < |evs|
          ensures Fits(evs[i], objects, path, data) && !evs[i].call.AbortMultipartUpload?
        {
          if i > 0 {
            assert evs[i] == evs[1..][i - 1];
          }
        }
      }
      if forall i | 0 <= i < |evs| :: Fits(evs[i], objects, path, data) && !evs[i].call.AbortMultipartUpload? {
        forall i | 0 <= i < |evs| - 1
          ensures Fits(evs[1..][i], objects, path, data) && !evs[1..][i].call.AbortMultipartUpload?
        {
          assert evs[1..][i] == evs[i + 1];
        }
      }
    }
  }

  /** A run opened an upload exactly when one of its requests is a
      successful CreateMultipartUpload. */
  lemma {:induction false} OpenedMeans(evs: seq<Event>)
    ensures Opened(evs) <==> exists i | 0 <= i < |evs| :: evs[i].call.CreateMultipartUpload? && evs[i].error.None?
    decreases |evs|
  {
    if evs != [] {
      OpenedMeans(evs[1..]);
      if Opened(evs[1..]) {
        var i :| 0 <= i < |evs[1..]| && evs[1..][i].call.CreateMultipartUpload? && evs[1..][i].error.None?;
        assert evs[i + 1] == evs[1..][i];
      }
      if i :| 0 <= i < |evs| && evs[i].call.CreateMultipartUpload? && evs[i].error.None? {
        if i > 0 {
          assert evs[1..][i - 1] == evs[i];
        }
      }
    }
  }

  /** The requests one append issues: the try block's run, starting with the
      listing of the path, every request concerning the object and none an
      abort, followed by exactly one abort of the upload the append opened
      when the run opened one and failed, and by nothing otherwise. The
      append succeeds exactly when every request of the run succeeded, and
      its failure has the first failed request's SDK error as root cause. */
  lemma AppendRequests(w: World, path: string, data: seq<byte>) returns (tried: seq<Event>, aborted: seq<Event>)
    ensures var r := AppendSpec(w, path, data);
            && r.world.trace == w.trace + tried + aborted
            && |tried| > 0 && tried[0].call == ListObjects(path)
            && (forall i | 0 <= i < |tried| :: Fits(tried[i], w.objects, path, data) && !tried[i].call.AbortMultipartUpload?)
            && (r.answer.Success? <==> FirstError(tried).None?)
            && (r.answer.Failure? ==> RootCause(r.answer.error) == SdkException(FirstError(tried).value))
            && (aborted != [] <==> r.answer.Failure? && Opened(tried))
            && (aborted != [] ==> |aborted| == 1 && aborted[0].call == AbortMultipartUpload(path, w.nextUploadId))
  {
    tried := TryAppendEvents(w, path, data);
    AllFitMeans(tried, w.objects, path, data);
    var a := TryAppend(w, path, data);
    if a.outcome.Failure? && a.uploadId.Some? {
      var ab := AbortStep(a.world, path, a.uploadId.value);
      aborted := [Event(AbortMultipartUpload(path, a.uploadId.value), ab.answer)];
      assert AppendSpec(w, path, data).world == ab.world;
      Assoc(w.trace, tried, aborted);
    } else {
      aborted := [];
      assert w.trace + tried + [] == w.trace + tried;
    }
  }

  /** Over a reliable connection, an append of a non-empty path succeeds
      exactly when the path is appendable: it fails when other keys start
      with the path but the path itself does not exist. */
  lemma AppendLive(w: World, path: string, data: seq<byte>)
    requires Reliable(w, 6) && path != ""
    ensures AppendSpec(w, path, data).answer.Success? <==> Appendable(w.objects, path)
  {
    var listed := ListSpec(w, path);
    assert |w.trace| !in w.faults;
    ListingEmpty(w.objects.Keys, path);
    if listed.answer.value == [] {
      assert forall k | k in w.objects :: !IsPrefix(path, k) by {
        forall k | k in w.objects && IsPrefix(path, k)
          ensures false
        {
          ListingCovers(w.objects.Keys, path, k);
        }
      }
      assert TryAppend(w, path, data) == Attempt(WriteSpec(listed.world, path, data).world, None, WriteSpec(listed.world, path, data).answer);
    } else {
      assert TryAppend(w, path, data) == TryExisting(listed.world, path, data);
      assert |listed.world.trace| !in listed.world.faults;
      if path in w.objects {
        ExistingLive(listed.world, path, data);
      } else {
        assert !Appendable(w.objects, path);
        assert SizeSpec(listed.world, path).answer.Failure?;
      }
    }
  }

  lemma ExistingLive(w: World, path: string, data: seq<byte>)
    requires Reliable(w, 5) && path != "" && path in w.objects
    ensures TryExisting(w, path, data).outcome.Success?
  {
    var size := SizeSpec(w, path);
    assert |w.trace| !in w.faults;
    assert Reliable(size.world, 4);
    if size.answer.value <= MinMultipartSize {
      assert |size.world.trace| !in size.world.faults;
      assert |size.world.trace| + 1 !in size.world.faults;
    } else {
      MultipartLive(size.world, path, data);
    }
  }

  lemma MultipartLive(w: World, path: string, data: seq<byte>)
    requires Reliable(w, 4) && path != "" && path in w.objects && |w.objects[path]| > MinMultipartSize
    ensures TryMultipart(w, path, data).outcome.Success?
  {
    var created := CreateStep(w, path);
    assert |w.trace| !in w.faults;
    var id := created.answer.value;
    assert IsOpen(created.world, path, id);
    var part1 := CopyPartStep(created.world, path, id, 1, path);
    assert |created.world.trace| !in created.world.faults;
    assert part1.answer.Success?;
    var part2 := UploadPartStep(part1.world, path, id, 2, data);
    assert |part1.world.trace| !in part1.world.faults;
    assert part2.answer.Success?;
    var listed := [CompletedPart(1, part1.answer.value), CompletedPart(2, part2.answer.value)];
    var parts := part2.world.sessions[id].parts;
    assert parts == map[1 := Part(part1.answer.value, w.objects[path]), 2 := Part(part2.answer.value, data)];
    assert CompletionError(parts, listed).None?;
    assert |part2.world.trace| !in part2.world.faults;
  }

  /** The as-written append fails over a reliable connection when the path
      does not exist but a longer key starts with it. */
  lemma AppendBesideLongerKey()
    ensures var w := World(map["a.csv.bak" := [1]], map[], 0, 0, [], {});
            AppendSpec(w, "a.csv", [2]).answer.Failure?
  {
    var w := World(map["a.csv.bak" := [1]], map[], 0, 0, [], {});
    assert IsPrefix("a.csv", "a.csv.bak");
    assert !Appendable(w.objects, "a.csv");
    AppendLive(w, "a.csv", [2]);
  }

  /** The corrected append creates a missing object and extends an existing
      one: over a reliable connection it succeeds for every non-empty path,
      and the object then holds its old content followed by the data. */
  lemma AppendIntendedCreates(w: World, path: string, data: seq<byte>)
    requires Reliable(w, 6) && path != ""
    ensures var r := AppendIntended(w, path, data);
            && r.answer == Success(path)
            && r.world.objects == w.objects[path := Content(w.objects, path) + data]
  {
    var listed := ListSpec(w, path);
    assert |w.trace| !in w.faults;
    ListedItself(w.objects.Keys, path);
    if path !in listed.answer.value {
      assert Content(w.objects, path) + data == data;
      assert |listed.world.trace| !in listed.world.faults;
    } else {
      assert TryAppendIntended(w, path, data) == TryExisting(listed.world, path, data);
      ExistingLive(listed.world, path, data);
      ExistingOutcome(listed.world, path, data);
    }
  }

  /** With an empty listing the append is one write of the data: no size,
      read or multipart request is made. */
  lemma NewObjectRequests(w: World, path: string, data: seq<byte>)
    requires ListSpec(w, path).answer == Success([])
    ensures var r := AppendSpec(w, path, data);
            var put := PutStep(ListStep(w, path).world, path, data);
            && r.world.trace == w.trace + [Event(ListObjects(path), None), Event(PutObject(path, data), put.answer)]
            && r.world.sessions == w.sessions
            && (r.answer.Success? <==> put.answer.None?)
  {
  }

  /** An object of at most 5 MiB is listed, sized, read and written back
      as its content followed by the data, and no upload is opened. */
  lemma SmallObjectRequests(w: World, path: string, data: seq<byte>)
    requires path in w.objects && |w.objects[path]| <= MinMultipartSize
    requires Reliable(w, 4) && path != ""
    ensures var r := AppendSpec(w, path, data);
            && r.world.trace == w.trace + [Event(ListObjects(path), None), Event(StatObject(path), None)]
                                        + [Event(GetObject(path), None), Event(PutObject(path, w.objects[path] + data), None)]
            && r.world.sessions == w.sessions
            && r.answer == Success(path)
  {
    ExistingAppend(w, path, data);
    var l := Event(ListObjects(path), None);
    var listed := Record(w, ListObjects(path), None);
    var size := SizeSpec(listed, path);
    assert |listed.trace| !in listed.faults;
    assert TryExisting(listed, path, data) == TryRewrite(size.world, path, data);
    var got := ReadSpec(size.world, path);
    assert |size.world.trace| !in size.world.faults;
    assert |got.world.trace| !in got.world.faults;
    var st := Event(StatObject(path), None);
    var rest := [Event(GetObject(path), None), Event(PutObject(path, w.objects[path] + data), None)];
    assert got.world.trace == w.trace + [l] + [st] + [rest[0]];
    Assoc(w.trace + [l] + [st], [rest[0]], [rest[1]]);
    assert [rest[0]] + [rest[1]] == rest;
    Assoc(w.trace, [l], [st]);
    assert [l] + [st] == [l, st];
  }

  /** The requests that extend an object on the server over a reliable
      connection: one upload is opened with the next upload id, part 1
      copies the object onto itself, part 2 is the data, and completion
      lists parts 1 and 2 in that order with the ETags the store gave
      them. */
  function MultipartRun(path: string, id: UploadId, etag: ETag, data: seq<byte>): seq<Event> {
    [Event(CreateMultipartUpload(path), None), Event(UploadPartCopy(path, id, 1, path), None), Event(UploadPart(path, id, 2, data), None),
     Event(CompleteMultipartUpload(path, id, [CompletedPart(1, etag), CompletedPart(2, etag + 1)]), None)]
  }

  /** An object above 5 MiB is listed, sized and then extended by exactly
      the multipart run, which completes the one upload it opens. */
  lemma LargeObjectRequests(w: World, path: string, data: seq<byte>)
    requires path in w.objects && |w.objects[path]| > MinMultipartSize
    requires Reliable(w, 6) && path != ""
    ensures var r := AppendSpec(w, path, data);
            && r.world.trace == w.trace + [Event(ListObjects(path), None), Event(StatObject(path), None)] + MultipartRun(path, w.nextUploadId, w.nextETag, data)
            && r.world.sessions.Keys == w.sessions.Keys + {w.nextUploadId}
            && r.world.sessions[w.nextUploadId].state == Completed
            && r.answer == Success(path)
  {
    ExistingAppend(w, path, data);
    var l := Event(ListObjects(path), None);
    ExistingShape(Record(w, ListObjects(path), None), path, data);
    var run := MultipartRun(path, w.nextUploadId, w.nextETag, data);
    var st := Event(StatObject(path), None);
    Assoc(w.trace + [l], [st], run);
    Assoc(w.trace, [l], [st]);
    assert [l] + [st] == [l, st];
  }

  /** An existing object is always listed, so the append goes on to its
      size. */
  lemma ExistingAppend(w: World, path: string, data: seq<byte>)
    requires path in w.objects && |w.trace| !in w.faults
    ensures TryAppend(w, path, data) == TryExisting(Record(w, ListObjects(path), None), path, data)
  {
    ListingCovers(w.objects.Keys, path, path);
    assert ListSpec(w, path).answer.value != [];
  }

  lemma ExistingShape(w: World, path: string, data: seq<byte>)
    requires Reliable(w, 5) && path != "" && path in w.objects && |w.objects[path]| > MinMultipartSize
    ensures var a := TryExisting(w, path, data);
            && a.world.trace == w.trace + [Event(StatObject(path), None)] + MultipartRun(path, w.nextUploadId, w.nextETag, data)
            && a.world.sessions.Keys == w.sessions.Keys + {w.nextUploadId}
            && a.world.sessions[w.nextUploadId].state == Completed
            && a.outcome == Success(path)
  {
    var size := SizeSpec(w, path);
    assert |w.trace| !in w.faults;
    assert TryExisting(w, path, data) == TryMultipart(size.world, path, data);
    MultipartShape(size.world, path, data);
  }

  lemma MultipartShape(w: World, path: string, data: seq<byte>)
    requires Reliable(w, 4) && path != "" && path in w.objects && |w.objects[path]| > MinMultipartSize
    ensures var a := TryMultipart(w, path, data);
            && a.world.trace == w.trace + MultipartRun(path, w.nextUploadId, w.nextETag, data)
            && a.world.sessions.Keys == w.sessions.Keys + {w.nextUploadId}
            && a.world.sessions[w.nextUploadId].state == Completed
            && a.outcome == Success(path)
  {
    MultipartLive(w, path, data);
    var created := CreateStep(w, path);
    assert |w.trace| !in w.faults;
    var id := created.answer.value;
    var part1 := CopyPartStep(created.world, path, id, 1, path);
    assert |created.world.trace| !in created.world.faults;
    var part2 := UploadPartStep(part1.world, path, id, 2, data);
    assert |part1.world.trace| !in part1.world.faults;
    assert |part2.world.trace| !in part2.world.faults;
    var run := MultipartRun(path, id, w.nextETag, data);
    assert w.trace + [run[0]] + [run[1]] + [run[2]] + [run[3]] == w.trace + run;
  }

  /** An append to an appendable path over a connection that no longer
      fails succeeds, and the connection stays that way. */
  lemma AppendReliably(w: World, path: string, data: seq<byte>)
    requires path != "" && Appendable(w.objects, path)
    requires forall i | |w.trace| <= i :: i !in w.faults
    ensures var r := AppendSpec(w, path, data);
            && r.answer == Success(path)
            && r.world.objects == w.objects[path := Content(w.objects, path) + data]
            && forall i | |r.world.trace| <= i :: i !in r.world.faults
  {
    AppendLive(w, path, data);
    AppendOutcome(w, path, data);
    var tried, aborted := AppendRequests(w, path, data);
  }

  /** Appending twice to an appendable path over a reliable connection
      leaves its old content followed by both data, in order; in
      particular a missing path ends up holding the first data followed
      by the second. */
  lemma AppendTwice(w: World, path: string, first: seq<byte>, second: seq<byte>)
    requires path != "" && Appendable(w.objects, path)
    requires forall i | |w.trace| <= i :: i !in w.faults
    ensures var r1 := AppendSpec(w, path, first);
            var r2 := AppendSpec(r1.world, path, second);
            && r1.answer == Success(path) && r2.answer == Success(path)
            && r2.world.objects == w.objects[path := Content(w.objects, path) + first + second]
  {
    var r1 := AppendSpec(w, path, first);
    AppendReliably(w, path, first);
    AppendReliably(r1.world, path, second);
    AppendedTwice(w.objects, r1.world.objects, AppendSpec(r1.world, path, second).world.objects, path, first, second);
  }

  lemma AppendedTwice(m0: map<string, seq<byte>>, m1: map<string, seq<byte>>, m2: map<string, seq<byte>>,
                      path: string, first: seq<byte>, second: seq<byte>)
    requires m1 == m0[path := Content(m0, path) + first]
    requires m2 == m1[path := Content(m1, path) + second]
    ensures m2 == m0[path := Content(m0, path) + first + second]
  {
  }

  /** What is written is read back. */
  lemma ClientWriteThenRead(w: World, path: string, data: seq<byte>)
    requires path != "" && |w.trace| !in w.faults && |w.trace| + 1 !in w.faults
    ensures var written := WriteSpec(w, path, data);
            && written.answer == Success(path)
            && ReadSpec(written.world, path).answer == Success(data)
            && SizeSpec(written.world, path).answer == Success(|data|)
  {
  }

  /** Removing every key under a directory in one call leaves its listing
      empty. */
  lemma RemoveAllThenList(w: World, dir: string, paths: seq<string>)
    requires forall k | k in w.objects && IsPrefix(dir, k) :: k in paths
    requires "" !in paths && |w.trace| !in w.faults && |w.trace| + 1 !in w.faults
    ensures var removed := RemoveAllSpec(w, paths);
            && removed.answer == Success(paths)
            && ListSpec(removed.world, dir).answer == Success([])
  {
    var removed := RemoveAllSpec(w, paths);
    forall k | k in removed.world.objects
      ensures !IsPrefix(dir, k)
    {
      assert k in w.objects && k !in paths;
    }
    ListingEmpty(removed.world.objects.Keys, dir);
  }
}
