/** The S3-compatible storage behind the FolioS3Client contract: one bucket
    of objects, the multipart upload sessions opened on it, and a record of
    every request the client issued. Each request either fails as a whole
    (no effect on objects or sessions) or takes effect as a whole; which
    requests fail for reasons outside the store (the network, the SDK) is
    decided by a failure oracle fixed when the bucket is created. */
module ObjectStore {
  import opened Types
  import opened Keys

  /** Opaque identifiers the backend issues. */
  type UploadId = nat
  type ETag = nat

  datatype UploadState = Initiated | Completed | Aborted

  /** An uploaded (or server-side copied) part and the ETag it was given. */
  datatype Part = Part(etag: ETag, data: seq<byte>)

  /** A multipart upload session: the key it will write, its state, and the
      parts uploaded so far, by part number. */
  datatype Session = Session(key: string, state: UploadState, parts: map<int, Part>)

  /** One entry of a completion request. */
  datatype CompletedPart = CompletedPart(partNumber: int, etag: ETag)

  /** The requests of the S3 REST protocol that the client issues. */
  datatype Call =
    | PutObject(key: string, data: seq<byte>)
    | GetObject(key: string)
    | StatObject(key: string)
    | ListObjects(prefix: string)
    | RemoveObject(key: string)
    | RemoveObjects(keys: seq<string>)
    | CreateMultipartUpload(key: string)
    | UploadPart(key: string, uploadId: UploadId, partNumber: int, data: seq<byte>)
    | UploadPartCopy(key: string, uploadId: UploadId, partNumber: int, sourceKey: string)
    | CompleteMultipartUpload(key: string, uploadId: UploadId, parts: seq<CompletedPart>)
    | AbortMultipartUpload(key: string, uploadId: UploadId)

  /** A request as the backend saw it, with the error it answered (if any). */
  datatype Event = Event(call: Call, error: Option<ErrorCode>)

  /** The whole state of the backend: objects, sessions, the counters it
      draws identifiers from, the requests seen so far, and the oracle:
      request number n (counting from 0) fails with a transport error exactly
      when n is in `faults`. */
  datatype World = World(objects: map<string, seq<byte>>, sessions: map<UploadId, Session>,
                         nextUploadId: UploadId, nextETag: ETag, trace: seq<Event>, faults: set<nat>)

  /** What a request answers, with the state it leaves behind. */
  datatype Reply<A> = Reply(world: World, answer: A)

  /** No object and no session has an empty key, and upload ids are issued
      in increasing order, so a fresh id names no existing session. */
  predicate WellFormed(w: World) {
    && "" !in w.objects
    && forall id | id in w.sessions :: id < w.nextUploadId && w.sessions[id].key != ""
  }

  /** The error the next request answers: a transport failure when the
      oracle says so, otherwise what the backend's own checks decided. */
  function Answer(w: World, check: Option<ErrorCode>): Option<ErrorCode> {
    if |w.trace| in w.faults then Some(TransportError) else check
  }

  /** The state after `call` was answered with `err`. */
  function Record(w: World, call: Call, err: Option<ErrorCode>): World {
    w.(trace := w.trace + [Event(call, err)])
  }

  /** The requests issued between two states, in order. */
  function Issued(before: World, after: World): seq<Event>
    requires |before.trace| <= |after.trace|
  {
    after.trace[|before.trace|..]
  }

  /** The first error among some requests, in the order they were issued. */
  function FirstError(evs: seq<Event>): Option<ErrorCode> {
    if evs == [] then None
    else if evs[0].error.Some? then evs[0].error
    else FirstError(evs[1..])
  }

  /** The first error of two consecutive runs of requests is the first
      run's, unless every request of it succeeded. */
  lemma {:induction false} FirstErrorConcat(a: seq<Event>, b: seq<Event>)
    ensures FirstError(a + b) == if FirstError(a).Some? then FirstError(a) else FirstError(b)
    decreases |a|
  {
    if a == [] {
      assert a + b == b;
    } else {
      assert (a + b)[1..] == a[1..] + b;
      FirstErrorConcat(a[1..], b);
    }
  }

  /** None of the next `n` requests meets a transport failure. */
  predicate Reliable(w: World, n: nat) {
    forall i | |w.trace| <= i < |w.trace| + n :: i !in w.faults
  }

  /** The content an object holds, or nothing when it does not exist. */
  function Content(objects: map<string, seq<byte>>, key: string): seq<byte> {
    if key in objects then objects[key] else []
  }

  /** PutObject: stores `data` under a non-empty key. */
  function PutStep(w: World, key: string, data: seq<byte>): (r: Reply<Option<ErrorCode>>)
    ensures WellFormed(w) ==> WellFormed(r.world)
  {
    var err := Answer(w, if key == "" then Some(InvalidArgument) else None);
    var changed := if err.None? then w.(objects := w.objects[key := data]) else w;
    Reply(Record(changed, PutObject(key, data), err), err)
  }

  /** GetObject: the whole content of an existing object. */
  function GetStep(w: World, key: string): (r: Reply<Result<seq<byte>, ErrorCode>>)
    ensures WellFormed(w) ==> WellFormed(r.world)
  {
    var err := Answer(w, if key in w.objects then None else Some(NoSuchKey));
    Reply(Record(w, GetObject(key), err), if err.Some? then Failure(err.value) else Success(w.objects[key]))
  }

  /** HeadObject (StatObject): the size of an existing object. */
  function StatStep(w: World, key: string): (r: Reply<Result<nat, ErrorCode>>)
    ensures WellFormed(w) ==> WellFormed(r.world)
  {
    var err := Answer(w, if key in w.objects then None else Some(NoSuchKey));
    Reply(Record(w, StatObject(key), err), if err.Some? then Failure(err.value) else Success(|w.objects[key]|))
  }

  /** ListObjectsV2 with delimiter '/': the immediate children of `prefix`,
      in ascending order. */
  function ListStep(w: World, prefix: string): (r: Reply<Result<seq<string>, ErrorCode>>)
    ensures WellFormed(w) ==> WellFormed(r.world)
  {
    var err := Answer(w, None);
    Reply(Record(w, ListObjects(prefix), err),
          if err.Some? then Failure(err.value) else Success(Ordered(Listing(w.objects.Keys, prefix))))
  }

  /** DeleteObject: removing an absent key succeeds; an empty key does not. */
  function RemoveStep(w: World, key: string): (r: Reply<Option<ErrorCode>>)
    ensures WellFormed(w) ==> WellFormed(r.world)
  {
    var err := Answer(w, if key == "" then Some(InvalidArgument) else None);
    var changed := if err.None? then w.(objects := w.objects - {key}) else w;
    Reply(Record(changed, RemoveObject(key), err), err)
  }

  /** DeleteObjects: removes every valid key in one request and answers with
      the keys it reports a per-object error for (the empty key). */
  function RemoveAllStep(w: World, keys: seq<string>): (r: Reply<Result<seq<string>, ErrorCode>>)
    ensures WellFormed(w) ==> WellFormed(r.world)
  {
    var err := Answer(w, None);
    var changed := if err.None? then w.(objects := w.objects - (set k | k in keys && k != "")) else w;
    Reply(Record(changed, RemoveObjects(keys), err),
          if err.Some? then Failure(err.value) else Success(if "" in keys then [""] else []))
  }

  /** CreateMultipartUpload: opens a fresh session for a non-empty key. */
  function CreateStep(w: World, key: string): (r: Reply<Result<UploadId, ErrorCode>>)
    ensures WellFormed(w) ==> WellFormed(r.world)
  {
    var err := Answer(w, if key == "" then Some(InvalidArgument) else None);
    var changed := if err.Some? then w
                   else w.(sessions := w.sessions[w.nextUploadId := Session(key, Initiated, map[])],
                           nextUploadId := w.nextUploadId + 1);
    Reply(Record(changed, CreateMultipartUpload(key), err), if err.Some? then Failure(err.value) else Success(w.nextUploadId))
  }

  /** A session that accepts parts, completion and abort for `key`. */
  predicate IsOpen(w: World, key: string, id: UploadId) {
    id in w.sessions && w.sessions[id].key == key && w.sessions[id].state == Initiated
  }

  /** The checks every part upload makes before it stores anything. */
  function PartCheck(w: World, key: string, id: UploadId, partNumber: int): Option<ErrorCode> {
    if !IsOpen(w, key, id) then Some(NoSuchUpload)
    else if !(1 <= partNumber <= MaxPartNumber) then Some(InvalidArgument)
    else None
  }

  /** The state after part `partNumber` of session `id` was stored with the
      next ETag. */
  function StorePart(w: World, id: UploadId, partNumber: int, data: seq<byte>): World
    requires id in w.sessions
  {
    var s := w.sessions[id];
    w.(sessions := w.sessions[id := s.(parts := s.parts[partNumber := Part(w.nextETag, data)])],
       nextETag := w.nextETag + 1)
  }

  /** UploadPart: stores `data` as part `partNumber` of an open session. */
  function UploadPartStep(w: World, key: string, id: UploadId, partNumber: int, data: seq<byte>): (r: Reply<Result<ETag, ErrorCode>>)
    ensures WellFormed(w) ==> WellFormed(r.world)
  {
    var err := Answer(w, PartCheck(w, key, id, partNumber));
    var changed := if err.Some? then w else StorePart(w, id, partNumber, data);
    Reply(Record(changed, UploadPart(key, id, partNumber, data), err), if err.Some? then Failure(err.value) else Success(w.nextETag))
  }

  /** UploadPartCopy: stores the whole of object `source` as part
      `partNumber`, copied on the server. */
  function CopyPartStep(w: World, key: string, id: UploadId, partNumber: int, source: string): (r: Reply<Result<ETag, ErrorCode>>)
    ensures WellFormed(w) ==> WellFormed(r.world)
  {
    var check := PartCheck(w, key, id, partNumber);
    var err := Answer(w, if check.Some? then check else if source in w.objects then None else Some(NoSuchKey));
    var changed := if err.Some? then w else StorePart(w, id, partNumber, w.objects[source]);
    Reply(Record(changed, UploadPartCopy(key, id, partNumber, source), err), if err.Some? then Failure(err.value) else Success(w.nextETag))
  }

  predicate Ascending(listed: seq<CompletedPart>) {
    forall i, j | 0 <= i < j < |listed| :: listed[i].partNumber < listed[j].partNumber
  }

  /** Every listed part was uploaded and carries the listed ETag. */
  predicate Matches(parts: map<int, Part>, listed: seq<CompletedPart>) {
    forall i | 0 <= i < |listed| :: listed[i].partNumber in parts && parts[listed[i].partNumber].etag == listed[i].etag
  }

  /** Every listed part but the last reaches the minimum part size. */
  predicate LargeEnough(parts: map<int, Part>, listed: seq<CompletedPart>)
    requires Matches(parts, listed)
  {
    forall i | 0 <= i < |listed| - 1 :: |parts[listed[i].partNumber].data| >= MinMultipartSize
  }

  /** How CompleteMultipartUpload judges a part list for an open session. */
  function CompletionError(parts: map<int, Part>, listed: seq<CompletedPart>): (e: Option<ErrorCode>)
    ensures e.None? <==> |listed| > 0 && Ascending(listed) && Matches(parts, listed) && LargeEnough(parts, listed)
  {
    if |listed| == 0 then Some(MalformedXML)
    else if !Ascending(listed) then Some(InvalidPartOrder)
    else if !Matches(parts, listed) then Some(InvalidPart)
    else if !LargeEnough(parts, listed) then Some(EntityTooSmall)
    else None
  }

  /** The object a successful completion stores: the listed parts' contents,
      in the listed order. */
  function Assemble(parts: map<int, Part>, listed: seq<CompletedPart>): seq<byte>
    requires forall i | 0 <= i < |listed| :: listed[i].partNumber in parts
  {
    if listed == [] then [] else parts[listed[0].partNumber].data + Assemble(parts, listed[1..])
  }

  /** CompleteMultipartUpload: replaces the object with the listed parts,
      in the listed order, and closes the session. */
  function CompleteStep(w: World, key: string, id: UploadId, listed: seq<CompletedPart>): (r: Reply<Result<string, ErrorCode>>)
    ensures WellFormed(w) ==> WellFormed(r.world)
  {
    var err := Answer(w, if !IsOpen(w, key, id) then Some(NoSuchUpload) else CompletionError(w.sessions[id].parts, listed));
    var changed := if err.Some? then w
                   else var s := w.sessions[id];
                        w.(objects := w.objects[key := Assemble(s.parts, listed)], sessions := w.sessions[id := s.(state := Completed)]);
    Reply(Record(changed, CompleteMultipartUpload(key, id, listed), err), if err.Some? then Failure(err.value) else Success(key))
  }

  /** AbortMultipartUpload: discards the parts and closes the session; a
      session that is already completed or aborted cannot be aborted. */
  function AbortStep(w: World, key: string, id: UploadId): (r: Reply<Option<ErrorCode>>)
    ensures WellFormed(w) ==> WellFormed(r.world)
  {
    var err := Answer(w, if IsOpen(w, key, id) then None else Some(NoSuchUpload));
    var changed := if err.Some? then w else w.(sessions := w.sessions[id := Session(key, Aborted, map[])]);
    Reply(Record(changed, AbortMultipartUpload(key, id), err), err)
  }

  /** Completing with two parts stores the first part's content followed
      by the second's. */
  lemma AssemblePair(parts: map<int, Part>, first: CompletedPart, second: CompletedPart)
    requires first.partNumber in parts && second.partNumber in parts
    ensures Assemble(parts, [first, second]) == parts[first.partNumber].data + parts[second.partNumber].data
  {
    assert [first, second][1..] == [second];
    assert [second][1..] == [];
    assert Assemble(parts, [second]) == parts[second.partNumber].data + Assemble(parts, []);
  }

  /** The completion entries that name the ETags as parts first, first + 1, ... */
  function NumberedFrom(first: int, etags: seq<ETag>): (listed: seq<CompletedPart>)
    ensures |listed| == |etags|
    ensures forall i | 0 <= i < |etags| :: listed[i] == CompletedPart(first + i, etags[i])
    decreases |etags|
  {
    if etags == [] then [] else [CompletedPart(first, etags[0])] + NumberedFrom(first + 1, etags[1..])
  }

  /** Positional completion: the i-th ETag (counting from 0) is part i + 1. */
  function Numbered(etags: seq<ETag>): seq<CompletedPart> {
    NumberedFrom(1, etags)
  }

  /** The remote storage a client talks to. */
  class Bucket {
    var objects: map<string, seq<byte>>
    var sessions: map<UploadId, Session>
    var nextUploadId: UploadId
    var nextETag: ETag
    /** Every request issued so far, in order. */
    var trace: seq<Event>
    const faults: set<nat>

    function State(): World
      reads this
    {
      World(objects, sessions, nextUploadId, nextETag, trace, faults)
    }

    ghost predicate Valid()
      reads this
    {
      WellFormed(State())
    }

    constructor (faults: set<nat>)
      ensures Valid()
      ensures State() == World(map[], map[], 0, 0, [], faults)
    {
      objects := map[];
      sessions := map[];
      nextUploadId := 0;
      nextETag := 0;
      trace := [];
      this.faults := faults;
    }

    /** Takes on the state a request left behind. */
    method Load(w: World)
      requires w.faults == faults
      modifies this
      ensures State() == w
    {
      objects, sessions, nextUploadId, nextETag, trace := w.objects, w.sessions, w.nextUploadId, w.nextETag, w.trace;
    }

    method Put(key: string, data: seq<byte>) returns (err: Option<ErrorCode>)
      requires Valid()
      modifies this
      ensures Valid()
      ensures var r := PutStep(old(State()), key, data); State() == r.world && err == r.answer
    {
      var r := PutStep(State(), key, data);
      Load(r.world);
      err := r.answer;
    }

    method Get(key: string) returns (answer: Result<seq<byte>, ErrorCode>)
      requires Valid()
      modifies this
      ensures Valid()
      ensures var r := GetStep(old(State()), key); State() == r.world && answer == r.answer
    {
      var r := GetStep(State(), key);
      Load(r.world);
      answer := r.answer;
    }

    method Stat(key: string) returns (answer: Result<nat, ErrorCode>)
      requires Valid()
      modifies this
      ensures Valid()
      ensures var r := StatStep(old(State()), key); State() == r.world && answer == r.answer
    {
      var r := StatStep(State(), key);
      Load(r.world);
      answer := r.answer;
    }

    method List(prefix: string) returns (answer: Result<seq<string>, ErrorCode>)
      requires Valid()
      modifies this
      ensures Valid()
      ensures var r := ListStep(old(State()), prefix); State() == r.world && answer == r.answer
    {
      var r := ListStep(State(), prefix);
      Load(r.world);
      answer := r.answer;
    }

    method Remove(key: string) returns (err: Option<ErrorCode>)
      requires Valid()
      modifies this
      ensures Valid()
      ensures var r := RemoveStep(old(State()), key); State() == r.world && err == r.answer
    {
      var r := RemoveStep(State(), key);
      Load(r.world);
      err := r.answer;
    }

    method RemoveAll(keys: seq<string>) returns (answer: Result<seq<string>, ErrorCode>)
      requires Valid()
      modifies this
      ensures Valid()
      ensures var r := RemoveAllStep(old(State()), keys); State() == r.world && answer == r.answer
    {
      var r := RemoveAllStep(State(), keys);
      Load(r.world);
      answer := r.answer;
    }

    /** initiateMultipartUpload. */
    method Create(key: string) returns (answer: Result<UploadId, ErrorCode>)
      requires Valid()
      modifies this
      ensures Valid()
      ensures var r := CreateStep(old(State()), key); State() == r.world && answer == r.answer
    {
      var r := CreateStep(State(), key);
      Load(r.world);
      answer := r.answer;
    }

    /** uploadMultipartPart, with the file's bytes as `data`. */
    method UploadPartData(key: string, id: UploadId, partNumber: int, data: seq<byte>) returns (answer: Result<ETag, ErrorCode>)
      requires Valid()
      modifies this
      ensures Valid()
      ensures var r := UploadPartStep(old(State()), key, id, partNumber, data); State() == r.world && answer == r.answer
    {
      var r := UploadPartStep(State(), key, id, partNumber, data);
      Load(r.world);
      answer := r.answer;
    }

    method CopyPart(key: string, id: UploadId, partNumber: int, source: string) returns (answer: Result<ETag, ErrorCode>)
      requires Valid()
      modifies this
      ensures Valid()
      ensures var r := CopyPartStep(old(State()), key, id, partNumber, source); State() == r.world && answer == r.answer
    {
      var r := CopyPartStep(State(), key, id, partNumber, source);
      Load(r.world);
      answer := r.answer;
    }

    method Complete(key: string, id: UploadId, listed: seq<CompletedPart>) returns (answer: Result<string, ErrorCode>)
      requires Valid()
      modifies this
      ensures Valid()
      ensures var r := CompleteStep(old(State()), key, id, listed); State() == r.world && answer == r.answer
    {
      var r := CompleteStep(State(), key, id, listed);
      Load(r.world);
      answer := r.answer;
    }

    /** completeMultipartUpload: the i-th ETag of the list (counting from 0)
        completes part i + 1. */
    method CompleteWithETags(key: string, id: UploadId, etags: seq<ETag>) returns (answer: Result<string, ErrorCode>)
      requires Valid()
      modifies this
      ensures Valid()
      ensures var r := CompleteStep(old(State()), key, id, Numbered(etags)); State() == r.world && answer == r.answer
    {
      answer := Complete(key, id, Numbered(etags));
    }

    /** abortMultipartUpload. */
    method Abort(key: string, id: UploadId) returns (err: Option<ErrorCode>)
      requires Valid()
      modifies this
      ensures Valid()
      ensures var r := AbortStep(old(State()), key, id); State() == r.world && err == r.answer
    {
      var r := AbortStep(State(), key, id);
      Load(r.world);
      err := r.answer;
    }
  }
}
