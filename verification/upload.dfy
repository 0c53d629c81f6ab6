/**
 * The upload step: deciding from the target whether an upload request is
 * sent, what it carries, and which exit code its outcome becomes. The HTTP
 * transport itself is outside the model; its outcome is an input.
 */
module Upload {
  import opened Wrappers

  /** Where the image goes: the output file, and optionally an access point URL and a tag MAC. */
  datatype Target = Target(file: string, ap: Option<string>, tag: Option<string>)

  /** An upload request: POST to url with form fields dither and mac, attaching the file. */
  datatype Request = Request(url: string, dither: int, mac: string, file: string)

  /**
   * What the transport reports: an HTTP status, a read timeout, a connection
   * error (connect timeouts included), or any other exception.
   */
  datatype Response = Status(code: int) | ReadTimeout | ConnectionError | OtherError

  /** The path of the access point's upload handler. */
  const Endpoint: string := "/imgupload"

  /**
   * What the program does after saving the image: stop (no access point and no
   * tag), fail on the first missing key while building the request, or post.
   */
  datatype Dispatch = Skip | MissingKey(key: string) | Post(request: Request)

  /**
   * The dispatch decision for a target. The image is uploaded only when both
   * the access point and the tag are given, to the access point's upload
   * handler, with the tag as mac and the dither flag as given. With only one
   * of the two the request cannot be built: the access point is looked up
   * first, so a missing access point is reported before a missing tag.
   */
  function Plan(t: Target, dither: int): (d: Dispatch)
    ensures d.Skip? <==> t.ap.None? && t.tag.None?
    ensures d.Post? <==> t.ap.Some? && t.tag.Some?
    ensures d.Post? ==>
      && |d.request.url| == |t.ap.value| + |Endpoint|
      && d.request.url[..|t.ap.value|] == t.ap.value
      && d.request.url[|t.ap.value|..] == "/imgupload"
      && d.request.mac == t.tag.value
      && d.request.dither == dither
      && d.request.file == t.file
    ensures d.MissingKey? ==> d.key == (if t.ap.None? then "ap" else "tag")
  {
    if t.ap.None? && t.tag.None? then Skip
    else if t.ap.None? then MissingKey("ap")
    else if t.tag.None? then MissingKey("tag")
    else Post(Request(t.ap.value + Endpoint, dither, t.tag.value, t.file))
  }

  /**
   * The exit code an upload outcome becomes: success only for HTTP 200; any
   * other status, a timeout, a connection error or another exception is a
   * failure.
   */
  function ExitCode(resp: Response): (code: int)
    ensures code == 0 <==> resp == Status(200)
    ensures code == 1 <==> resp != Status(200)
  {
    match resp
    case Status(s) => if s == 200 then 0 else 1
    case ReadTimeout => 1
    case ConnectionError => 1
    case OtherError => 1
  }
}
