/** PutObjectAdditionalOptions: the optional content headers a write can
    carry, and their translation into the request headers MinIO sends. */
module Headers {
  import opened Types

  /** Both options are nullable strings. */
  datatype PutObjectAdditionalOptions = PutObjectAdditionalOptions(contentDisposition: Option<string>, contentType: Option<string>)

  const Disposition: string := "Content-Disposition"
  const ContentType: string := "Content-Type"

  /** toMinioHeaders: one header per option that is set, and none for
      absent options. */
  function ToMinioHeaders(options: Option<PutObjectAdditionalOptions>): (headers: map<string, string>)
    ensures options.None? ==> headers == map[]
    ensures options.Some? ==> (Disposition in headers <==> options.value.contentDisposition.Some?)
    ensures options.Some? ==> (ContentType in headers <==> options.value.contentType.Some?)
    ensures options.Some? && options.value.contentDisposition.Some? ==> headers[Disposition] == options.value.contentDisposition.value
    ensures options.Some? && options.value.contentType.Some? ==> headers[ContentType] == options.value.contentType.value
    ensures forall h | h in headers :: h == Disposition || h == ContentType
  {
    if options.None? then map[]
    else
      var withDisposition := if options.value.contentDisposition.Some? then map[Disposition := options.value.contentDisposition.value] else map[];
      if options.value.contentType.Some? then withDisposition[ContentType := options.value.contentType.value] else withDisposition
  }

  /** The options that a set of headers expresses. */
  function FromHeaders(headers: map<string, string>): PutObjectAdditionalOptions {
    PutObjectAdditionalOptions(if Disposition in headers then Some(headers[Disposition]) else None,
                               if ContentType in headers then Some(headers[ContentType]) else None)
  }

  /** No information is lost: the headers give back the options. */
  lemma HeadersRoundTrip(options: PutObjectAdditionalOptions)
    ensures FromHeaders(ToMinioHeaders(Some(options))) == options
  {
  }

  /** There are as many headers as options set. */
  lemma HeaderCount(options: PutObjectAdditionalOptions)
    ensures |ToMinioHeaders(Some(options))| == (if options.contentDisposition.Some? then 1 else 0) + (if options.contentType.Some? then 1 else 0)
  {
    var headers := ToMinioHeaders(Some(options));
    if options.contentDisposition.Some? && options.contentType.Some? {
      assert headers.Keys == {Disposition, ContentType};
    } else if options.contentDisposition.Some? {
      assert headers.Keys == {Disposition};
    } else if options.contentType.Some? {
      assert headers.Keys == {ContentType};
    } else {
      assert headers.Keys == {};
    }
  }
}
