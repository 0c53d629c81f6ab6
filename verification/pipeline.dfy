/**
 * One run of the program: create the canvas for the chosen preset, draw the
 * lines, normalise the orientation, save, and optionally upload, ending in
 * the process exit status. Saving the file is not modelled; the upload
 * transport is a parameter.
 */
module Pipeline {
  import opened Wrappers
  import opened PaletteCanvas
  import Sizes
  import opened Composition
  import opened Orientation
  import opened Upload

  /** One invocation: size name, lines, dither flag, requested rotation, and target. */
  datatype RenderRequest = RenderRequest(size: string, lines: seq<Line>, dither: int, rotation: int, target: Target)

  /** The image produced: the composed canvas, and how it was turned for saving. */
  datatype Image = Image(composed: Canvas, oriented: Normalized)

  /** The result of a run: the image (when composition succeeded), the request posted, if any, and the exit status. */
  datatype Outcome = Outcome(image: Option<Image>, posted: Option<Request>, status: int)

  /**
   * A run. A font that does not load, or a target with only one of access
   * point and tag, raises an error the program does not catch, which ends the
   * process with status 1; otherwise the status is what the upload step
   * returns, or 0 when there is nothing to upload.
   */
  function Run(req: RenderRequest, r: Renderer, send: Request -> Response): (o: Outcome)
    requires req.size in Sizes.Table
    requires req.rotation == 0 || req.rotation == 180
    ensures o.status == 0 || o.status == 1
    ensures o.image.Some? <==> forall i :: 0 <= i < |req.lines| ==> Loads(r, req.lines[i])
    ensures o.image.Some? ==>
      && Wf(o.image.value.composed)
      && (o.image.value.composed.width, o.image.value.composed.height) == Sizes.Table[req.size]
      && o.image.value.oriented == Normalize(req.rotation, o.image.value.composed.width, o.image.value.composed.height)
      && o.image.value.oriented.width >= o.image.value.oriented.height
    ensures o.posted.Some? <==> o.image.Some? && req.target.ap.Some? && req.target.tag.Some?
    ensures o.posted.Some? ==> o.posted.value == Request(req.target.ap.value + "/imgupload", req.dither, req.target.tag.value, req.target.file)
    ensures o.status == 0 <==>
      && o.image.Some?
      && ((req.target.ap.None? && req.target.tag.None?) || (o.posted.Some? && send(o.posted.value) == Status(200)))
  {
    var dims := Sizes.Lookup(req.size).value;
    match Compose(New(dims.0, dims.1), req.lines, r)
    case Err(_) => Outcome(None, None, 1)
    case Ok(c) =>
      var img := Some(Image(c, Normalize(req.rotation, c.width, c.height)));
      match Plan(req.target, req.dither)
      case Skip => Outcome(img, None, 0)
      case MissingKey(_) => Outcome(img, None, 1)
      case Post(q) => Outcome(img, Some(q), ExitCode(send(q)))
  }

  /**
   * The composed image of a successful run has a white background under the
   * lines: each pixel shows the colour of the last line that inks it, and is
   * white where no line does.
   */
  lemma RunLastWriteWins(req: RenderRequest, r: Renderer, send: Request -> Response, x: int, y: int)
    requires req.size in Sizes.Table
    requires req.rotation == 0 || req.rotation == 180
    requires Run(req, r, send).image.Some?
    requires 0 <= x < Sizes.Table[req.size].0 && 0 <= y < Sizes.Table[req.size].1
    ensures var c := Run(req, r, send).image.value.composed;
      var w := Sizes.Table[req.size].0;
      var h := Sizes.Table[req.size].1;
      match LastCover(w, h, req.lines, r, x, y)
      case Some(i) => c.px[y][x] == req.lines[i].color
      case None => ColorOf(c.px[y][x]) == Rgb(255, 255, 255)
  {
    var d := Sizes.Lookup(req.size).value;
    var base := New(d.0, d.1);
    ComposeLastWriteWins(base, req.lines, r, x, y);
  }

  /** Every preset, under either requested rotation, ends wide or square. */
  lemma PresetsEndLandscape(name: string, rotation: int)
    requires name in Sizes.Table
    requires rotation == 0 || rotation == 180
    ensures var d := Sizes.Table[name];
      var n := Normalize(rotation, d.0, d.1);
      n.width >= n.height
  {
  }

  /** The one-line request used by the end-to-end scenarios below. */
  function HiRequest(target: Target): RenderRequest {
    RenderRequest("296x128", [Line("Hi", "font.ttf", 20, 1, Layout.Center, Layout.Middle, 0)], 0, 0, target)
  }

  /** A 296x128 run with no target saves an unrotated 296x128 image, posts nothing, and exits 0. */
  lemma ScenarioNoUpload(r: Renderer, send: Request -> Response)
    requires r.loads("font.ttf", 20)
    ensures var o := Run(HiRequest(Target("out.jpg", None, None)), r, send);
      && o.image.Some?
      && (o.image.value.composed.width, o.image.value.composed.height) == (296, 128)
      && o.image.value.oriented == Normalized(None, 296, 128)
      && o.posted == None
      && o.status == 0
  {
    var req := HiRequest(Target("out.jpg", None, None));
    assert Loads(r, req.lines[0]);
  }

  /** With a target whose access point answers 200, exactly that one request is posted and the run exits 0. */
  lemma ScenarioUploadAccepted(r: Renderer, send: Request -> Response, ap: string, tag: string)
    requires r.loads("font.ttf", 20)
    requires send(Request(ap + "/imgupload", 0, tag, "out.jpg")) == Status(200)
    ensures var o := Run(HiRequest(Target("out.jpg", Some(ap), Some(tag))), r, send);
      && o.posted == Some(Request(ap + "/imgupload", 0, tag, "out.jpg"))
      && o.status == 0
  {
    var req := HiRequest(Target("out.jpg", Some(ap), Some(tag)));
    assert Loads(r, req.lines[0]);
  }

  /** When the access point cannot be reached the run still ends normally, with exit status 1. */
  lemma ScenarioUnreachable(r: Renderer, send: Request -> Response, ap: string, tag: string)
    requires r.loads("font.ttf", 20)
    requires send(Request(ap + "/imgupload", 0, tag, "out.jpg")) == ConnectionError
    ensures var o := Run(HiRequest(Target("out.jpg", Some(ap), Some(tag))), r, send);
      && o.image.Some?
      && o.posted.Some?
      && o.status == 1
  {
    var req := HiRequest(Target("out.jpg", Some(ap), Some(tag)));
    assert Loads(r, req.lines[0]);
  }
}
