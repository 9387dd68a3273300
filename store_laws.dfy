/** What the FolioS3Client contract promises about the storage, proved
    about the request model: reads see the last write, listings are sorted
    and one level deep, completion concatenates the parts in order, and a
    completed or aborted upload accepts nothing more. */
module StoreLaws {
  import opened Types
  import opened Keys
  import opened ObjectStore

  /** Reading an object returns what was written to it. */
  lemma WriteThenRead(w: World, key: string, data: seq<byte>)
    requires |w.trace| + 1 !in w.faults
    ensures var put := PutStep(w, key, data);
            put.answer.None? ==> (GetStep(put.world, key).answer == Success(data)
                                  && StatStep(put.world, key).answer == Success(|data|))
  {
  }

  /** A write succeeds exactly when the key is not empty and the request
      reaches the store. */
  lemma WriteSucceeds(w: World, key: string, data: seq<byte>)
    ensures PutStep(w, key, data).answer.None? <==> key != "" && |w.trace| !in w.faults
  {
  }

  /** A successful listing holds the immediate children of the prefix (and
      the prefix itself when it is a key), once each and in ascending order,
      and represents every key under the prefix. */
  lemma ListAnswer(w: World, prefix: string)
    requires ListStep(w, prefix).answer.Success?
    ensures var entries := ListStep(w, prefix).answer.value;
            && StrictlySorted(entries)
            && (forall e | e in entries :: e == prefix || ImmediateChild(w.objects.Keys, prefix, e))
            && (forall k | k in w.objects && IsPrefix(prefix, k) :: Entry(prefix, k) in entries)
            && (entries == [] <==> forall k | k in w.objects :: !IsPrefix(prefix, k))
  {
    var entries := ListStep(w, prefix).answer.value;
    assert entries == Ordered(Listing(w.objects.Keys, prefix));
    forall e | e in entries
      ensures e == prefix || ImmediateChild(w.objects.Keys, prefix, e)
    {
      ListingIsOneLevel(w.objects.Keys, prefix, e);
    }
    forall k | k in w.objects && IsPrefix(prefix, k)
      ensures Entry(prefix, k) in entries
    {
      ListingCovers(w.objects.Keys, prefix, k);
    }
    ListingEmpty(w.objects.Keys, prefix);
    assert |entries| == |Listing(w.objects.Keys, prefix)|;
  }

  /** Removing every key under a prefix in one request leaves the prefix
      with no listing entry. */
  lemma RemoveAllClearsListing(w: World, keys: seq<string>, prefix: string)
    requires forall k | k in w.objects && IsPrefix(prefix, k) :: k in keys
    requires "" !in w.objects
    requires RemoveAllStep(w, keys).answer.Success?
    ensures Listing(RemoveAllStep(w, keys).world.objects.Keys, prefix) == {}
  {
    var after := RemoveAllStep(w, keys).world.objects;
    forall k | k in after
      ensures !IsPrefix(prefix, k)
    {
      assert k in w.objects && k !in keys;
    }
    ListingEmpty(after.Keys, prefix);
  }

  /** Numbering ETags from `first` on lists the parts first, first + 1, ...
      in ascending order, and their assembly is the contents in that order. */
  lemma {:induction false} AssembleNumbered(parts: map<int, Part>, first: int, etags: seq<ETag>, contents: seq<seq<byte>>)
    requires |etags| == |contents|
    requires forall n | first <= n < first + |etags| :: n in parts && parts[n] == Part(etags[n - first], contents[n - first])
    ensures Matches(parts, NumberedFrom(first, etags))
    ensures Ascending(NumberedFrom(first, etags))
    ensures Assemble(parts, NumberedFrom(first, etags)) == Flatten(contents)
    decreases |etags|
  {
    if etags != [] {
      var tags, rest := etags[1..], contents[1..];
      forall n | first + 1 <= n < first + 1 + |tags|
        ensures n in parts && parts[n] == Part(tags[n - (first + 1)], rest[n - (first + 1)])
      {
        assert tags[n - (first + 1)] == etags[n - first];
      }
      AssembleNumbered(parts, first + 1, tags, rest);
      var listed := NumberedFrom(first, etags);
      assert listed[1..] == NumberedFrom(first + 1, tags);
    }
  }

  /** Completing an upload whose parts 1..n were uploaded with the given
      ETags, every part but the last at least 5 MiB, stores the parts'
      contents concatenated in part order and closes the session. */
  lemma CompleteNumbered(w: World, key: string, id: UploadId, etags: seq<ETag>, contents: seq<seq<byte>>)
    requires IsOpen(w, key, id)
    requires |etags| == |contents| > 0
    requires forall n | 1 <= n <= |etags| :: n in w.sessions[id].parts && w.sessions[id].parts[n] == Part(etags[n - 1], contents[n - 1])
    requires forall i | 0 <= i < |contents| - 1 :: |contents[i]| >= MinMultipartSize
    requires |w.trace| !in w.faults
    ensures var r := CompleteStep(w, key, id, Numbered(etags));
            && r.answer == Success(key)
            && r.world.objects == w.objects[key := Flatten(contents)]
            && !IsOpen(r.world, key, id)
  {
    var parts := w.sessions[id].parts;
    AssembleNumbered(parts, 1, etags, contents);
    var listed := Numbered(etags);
    assert LargeEnough(parts, listed) by {
      forall i | 0 <= i < |listed| - 1
        ensures |parts[listed[i].partNumber].data| >= MinMultipartSize
      {
        assert listed[i].partNumber == 1 + i;
      }
    }
  }

  /** For the ETags of uploaded parts 1..n, listed by position, the
      storage accepts the completion exactly when there is at least one
      part and every part but the last reaches the minimum part size. */
  lemma CompletionOfNumbered(parts: map<int, Part>, etags: seq<ETag>)
    requires forall n | 1 <= n <= |etags| :: n in parts && parts[n].etag == etags[n - 1]
    ensures CompletionError(parts, Numbered(etags)).None?
            <==> |etags| > 0 && forall n | 1 <= n < |etags| :: |parts[n].data| >= MinMultipartSize
  {
    var listed := Numbered(etags);
    assert forall i | 0 <= i < |listed| :: listed[i] == CompletedPart(i + 1, etags[i]);
    assert Ascending(listed);
    assert Matches(parts, listed) by {
      forall i | 0 <= i < |listed|
        ensures listed[i].partNumber in parts && parts[listed[i].partNumber].etag == listed[i].etag
      {
        assert listed[i].partNumber == i + 1;
      }
    }
    if LargeEnough(parts, listed) {
      forall n | 1 <= n < |etags|
        ensures |parts[n].data| >= MinMultipartSize
      {
        assert listed[n - 1].partNumber == n;
      }
    }
  }

  /** A completion request that lists no part fails and changes nothing. */
  lemma CompleteEmptyFails(w: World, key: string, id: UploadId)
    ensures var r := CompleteStep(w, key, id, []);
            r.answer.Failure? && r.world == Record(w, CompleteMultipartUpload(key, id, []), Some(r.answer.error))
  {
  }

  /** Once an upload is completed or aborted, uploading a part, copying a
      part, completing and aborting all fail and change nothing but the
      trace. */
  lemma TerminalSession(w: World, key: string, id: UploadId, n: int, data: seq<byte>, source: string, listed: seq<CompletedPart>)
    requires id in w.sessions && w.sessions[id].state != Initiated
    ensures var r := UploadPartStep(w, key, id, n, data); r.answer.Failure? && r.world == Record(w, UploadPart(key, id, n, data), Some(r.answer.error))
    ensures var r := CopyPartStep(w, key, id, n, source); r.answer.Failure? && r.world == Record(w, UploadPartCopy(key, id, n, source), Some(r.answer.error))
    ensures var r := CompleteStep(w, key, id, listed); r.answer.Failure? && r.world == Record(w, CompleteMultipartUpload(key, id, listed), Some(r.answer.error))
    ensures var r := AbortStep(w, key, id); r.answer.Some? && r.world == Record(w, AbortMultipartUpload(key, id), r.answer)
  {
  }

  /** A multipart upload cannot be opened for the empty key. */
  lemma CreateRejectsEmptyKey(w: World)
    ensures CreateStep(w, "").answer.Failure?
  {
  }

  /** Opening a session and aborting it leave every object as it was. */
  lemma SessionsKeepObjects(w: World, key: string, id: UploadId, n: int, data: seq<byte>)
    ensures CreateStep(w, key).world.objects == w.objects
    ensures AbortStep(w, key, id).world.objects == w.objects
    ensures UploadPartStep(w, key, id, n, data).world.objects == w.objects
  {
  }
}
