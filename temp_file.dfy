/** The temp file both writers buffer into: it holds the text written so
    far while it exists, and is gone once deleted. The file system's
    failures are parameters saying whether an append or a delete fails. */
module TempFile {
  import opened Types
  import opened ObjectStore
  import Minio
  import Aws

  /** StringUtils.isNotEmpty: neither null nor "". */
  predicate NonEmpty(data: Option<string>) {
    data.Some? && data.value != ""
  }

  /** The temp file after write(data): a non-empty write is appended to
      it; an empty or null write, or an append that fails, deletes it,
      unless the deletion fails too. */
  function Written(tmp: Option<string>, data: Option<string>, appendFails: bool, deleteFails: bool): Option<string> {
    if NonEmpty(data) && !appendFails then
      if tmp.Some? then Some(tmp.value + data.value) else None
    else if deleteFails then tmp
    else None
  }

  /** Whether write(data) tries to delete an existing temp file. */
  predicate Deletes(tmp: Option<string>, data: Option<string>, appendFails: bool) {
    tmp.Some? && !(NonEmpty(data) && !appendFails)
  }

  /** The temp file after a run of writes none of which fails. */
  function AfterWrites(tmp: Option<string>, writes: seq<Option<string>>): Option<string>
    decreases |writes|
  {
    if writes == [] then tmp
    else AfterWrites(Written(tmp, writes[0], false, false), writes[1..])
  }

  /** The text of a run of writes, null ones contributing nothing. */
  function Text(writes: seq<Option<string>>): string
    decreases |writes|
  {
    if writes == [] then ""
    else (if writes[0].Some? then writes[0].value else "") + Text(writes[1..])
  }

  /** A fresh temp file that only receives non-empty writes holds all of
      them, in order. */
  lemma {:induction false} AfterNonEmptyWrites(prefix: string, writes: seq<Option<string>>)
    requires forall i | 0 <= i < |writes| :: NonEmpty(writes[i])
    ensures AfterWrites(Some(prefix), writes) == Some(prefix + Text(writes))
    decreases |writes|
  {
    if writes != [] {
      assert NonEmpty(writes[0]);
      assert forall i | 0 <= i < |writes[1..]| :: writes[1..][i] == writes[i + 1];
      assert Written(Some(prefix), writes[0], false, false) == Some(prefix + writes[0].value);
      AfterNonEmptyWrites(prefix + writes[0].value, writes[1..]);
      assert Text(writes) == writes[0].value + Text(writes[1..]);
      Assoc(prefix, writes[0].value, Text(writes[1..]));
    } else {
      assert prefix + "" == prefix;
    }
  }

  /** Once an empty or null write has deleted the temp file, it stays
      deleted whatever is written after. */
  lemma {:induction false} AfterEmptyWrite(tmp: Option<string>, writes: seq<Option<string>>, i: nat)
    requires i < |writes| && !NonEmpty(writes[i])
    ensures AfterWrites(tmp, writes) == None
    decreases |writes|
  {
    if i == 0 {
      GoneStaysGone(writes[1..]);
    } else {
      AfterEmptyWrite(Written(tmp, writes[0], false, false), writes[1..], i - 1);
    }
  }

  lemma {:induction false} GoneStaysGone(writes: seq<Option<string>>)
    ensures AfterWrites(None, writes) == None
    decreases |writes|
  {
    if writes != [] {
      GoneStaysGone(writes[1..]);
    }
  }

  /** The client a writer uploads through. */
  datatype Backend = MinioBackend | AwsBackend

  /** FolioS3Client.write of the client in use. */
  function Upload(backend: Backend, w: World, path: string, data: seq<byte>): (r: Minio.Outcome<string>)
    ensures r.answer.Success? <==> path != "" && |w.trace| !in w.faults
    ensures r.answer.Success? ==> r.world.objects == w.objects[path := data]
    ensures r.answer.Failure? ==> r.world.objects == w.objects && r.answer.error.S3ClientException?
  {
    match backend
    case MinioBackend => Minio.WriteSpec(w, path, data)
    case AwsBackend => Aws.WriteSpec(w, path, data)
  }

  method UploadWith(backend: Backend, store: Bucket, path: string, data: seq<byte>) returns (r: Result<string, Exception>)
    requires store.Valid()
    modifies store
    ensures store.Valid()
    ensures var spec := Upload(backend, old(store.State()), path, data); store.State() == spec.world && r == spec.answer
  {
    match backend
    case MinioBackend => r := Minio.Write(store, path, data);
    case AwsBackend => r := Aws.Write(store, path, data);
  }
}
