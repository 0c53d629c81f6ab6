# eink image generator — Dafny model

A model of the layout and orientation core of `eink_create_img.py`, a script
that renders a list of text directives onto a three-colour (white, black,
red) e-paper image and optionally uploads it to an OpenEPaperLink access
point. The model covers:

- **Palette and canvas** (`palette_canvas.dfy`, module `PaletteCanvas`): the
  nine-byte flat palette, the colour each index shows, and the zero-filled
  (white) paletted canvas.
- **Size presets** (`sizes.dfy`, module `Sizes`): the ten-entry table, with
  each panel reachable under a dimension string and a device shorthand.
- **Layout** (`layout.dfy`, module `Layout`): how `l|c|r` / `t|m|b` codes
  or literal offsets become the top-left draw point, using a measured
  bounding box `(left, top, right, bottom)` as input.
- **Composition** (`composition.dfy`, module `Composition`): the lines drawn
  in order onto a pixel grid. A later line overwrites an earlier one, and
  the first font that fails to load aborts the run. Font loading, measuring
  and glyph ink come from a `Renderer` value of total functions.
- **Orientation** (`orientation.dfy`, module `Orientation`): the extra quarter
  turn for tall canvases. It also gives the size effect of an expanding
  rotation by a multiple of 90 degrees.
- **Upload decision and exit code** (`upload.dfy`, module `Upload`), and one
  whole run (`pipeline.dfy`, module `Pipeline`) ending in the process exit
  status. The HTTP transport is a parameter `send: Request -> Response`.

Vertical "middle" centring is modelled as the program writes it: it centres
against the canvas **width**, not its height (line 79). The lemmas in
`Layout` spell out what follows. On a square canvas it is true centring. On
a canvas at least two pixels wider than tall it sits strictly lower. On the
296x128 panel, a middle line whose text is at most 40 pixels tall gets a draw
point at or below the bottom edge. When the measured box bounds the ink and
does not reach above the draw point, drawing such a line changes no pixel. The model keeps this
behaviour rather than correcting it.

A target carrying only one of access point and tag is not an upload and not
a skip: building the request looks up the missing key (line 123 or 124)
before the `try` block, so the lookup error ends the process with status 1 and
nothing is posted. The command line always sets both keys or neither, so this
path is only reachable through `main` itself; `Upload.Plan` models it as
`MissingKey`.

Right and bottom alignment line up the measured box with the canvas edge,
not the ink: the text is drawn with its anchor at the resolved point, so its
ink ends at `width + box.left` and `height + box.top`
(`Composition.AlignedInkEdges`, assuming the box bounds the ink). The model keeps this; a box with a positive
top, the usual case, pushes bottom-aligned ink past the edge, where it is
clipped.

Python's `//` is floor division. Dafny's `/` agrees with it for the divisor 2
used here, and `Layout.FloorHalf` states the floor property directly. The
requested rotation and the size name are restricted by the command line
(lines 165 and 168); in the model these become preconditions.

## Model

| member | source | states |
|---|---|---|
| PaletteCanvas.ColorOf | eink_create_img.py:46-51 | reading entry i out of the flat palette gives white exactly for 0, black exactly for 1, red exactly for 2 |
| PaletteCanvas.PaletteRoundTrip | eink_create_img.py:46-51 | the palette has nine bytes, all in 0..255. Re-flattening its three entries gives back the same bytes |
| PaletteCanvas.New | eink_create_img.py:96-97 | a new canvas has the requested size, satisfies the canvas invariant, and every pixel shows white |
| Sizes.TableAliases | eink_create_img.py:34-45 | both names of every preset are keys. They give the same dimensions, and both are positive |
| Sizes.DimNameSpellsDims | eink_create_img.py:34-45 | each dimension-string key spells its own entry as "<width>x<height>" in decimal |
| Sizes.TableKeys | eink_create_img.py:34-45 | the table's keys are exactly the two names of the five presets, nothing else |
| Sizes.TallIsTransposedWide | eink_create_img.py:37-44 | the tall 2.9 and 4.2 mountings are the wide ones with width and height exchanged |
| Sizes.Lookup | eink_create_img.py:34-45 | a name selects dimensions exactly when it is a key, that is, one of a preset's two names. Either name selects that preset's dimensions, which are positive |
| Layout.FloorHalf | eink_create_img.py:72 | halving rounds down for every sign: 2q <= n <= 2q+1 |
| Layout.ResolveX | eink_create_img.py:70-76 | l gives 0 and c gives floor((width - textW)/2). r gives an x with x + textW == width. A literal passes through |
| Layout.ResolveY | eink_create_img.py:77-83 | t gives 0 and m gives floor((canvas width - textH)/2). b gives a y with y + textH == height. A literal passes through |
| Layout.CenterOverflowsLeft | eink_create_img.py:71-72 | centring text wider than the canvas gives a negative x; nothing is clamped |
| Layout.MiddleCentresOnSquare | eink_create_img.py:78-79 | on a square canvas "middle" is true vertical centring |
| Layout.MiddleSinksOnWide | eink_create_img.py:78-79 | on a canvas at least two pixels wider than tall, "middle" is strictly lower than vertical centring |
| Layout.MiddleOffCanvasOn296x128 | eink_create_img.py:78-79 | on 296x128, a middle line at most 40 pixels tall gets a draw point at or below the bottom edge |
| Composition.Draw | eink_create_img.py:84 | drawing a line keeps the size and the palette-index invariant. A pixel its ink covers takes the line's colour; every other pixel keeps its colour |
| Composition.MiddleInvisibleOn296x128 | eink_create_img.py:77-84 | on 296x128, a middle line whose box is at most 40 tall, bounds its ink and starts at or below its draw point leaves the canvas unchanged |
| Composition.AlignedInkEdges | eink_create_img.py:67-84 | when the measured box bounds the ink, alignment lines up the box, not the ink: right-aligned ink lies in columns below width + box.left, and bottom-aligned ink in rows below height + box.top |
| Composition.Compose | eink_create_img.py:63-84 | composition succeeds exactly when every line's font loads. Success keeps the size and the palette-index invariant. Failure reports the first line whose font does not load |
| Composition.LastCover | eink_create_img.py:64-84 | finds the last line whose ink covers a pixel, or none; no later line covers it |
| Composition.ComposeLastWriteWins | eink_create_img.py:64-84 | after composition each pixel has the colour of the last line inking it, or its base colour if none does |
| Orientation.TotalRotation | eink_create_img.py:106-107 | a tall canvas gets +90 on top of the request; a wide or square one keeps the request. From a multiple of 180, the total is therefore an odd number of quarter turns exactly when the canvas is tall |
| Orientation.RotatedDims | eink_create_img.py:110 | an expanding rotation by an odd number of quarter turns exchanges width and height. An even number keeps them |
| Orientation.RotationsCompose | eink_create_img.py:110 | two expanding rotations size the image the same as one rotation by their sum |
| Orientation.Normalize | eink_create_img.py:105-110 | a rotation is applied exactly when the total is non-zero. It is 90, 180 or 270, and the result is wide or square with the same sides |
| Orientation.NoCorrectionWhenLandscape | eink_create_img.py:106-107 | a wide or square canvas is never corrected |
| Orientation.TallWithHalfTurn | eink_create_img.py:106-110 | 180 requested on a tall canvas rotates by 270 and exchanges the sides |
| Upload.Plan | eink_create_img.py:118-125 | no access point and no tag means no upload. Both present means a POST to "<ap>/imgupload" with mac = tag, the dither flag and the file. One alone fails on the first missing key, "ap" before "tag" |
| Upload.ExitCode | eink_create_img.py:131-148 | exit code 0 exactly for HTTP 200. Any other status, a timeout, a connection error or another exception gives 1 |
| Pipeline.Run | eink_create_img.py:86-148 | the status is 0 or 1. An image exists exactly when every font loads, at the preset's size, and it ends wide or square. A request is posted only with both keys. Status 0 means no target, or an answer of 200 |
| Pipeline.RunLastWriteWins | eink_create_img.py:63-103 | in a run's composed image each pixel shows the last line inking it, or white where no line does |
| Pipeline.PresetsEndLandscape | eink_create_img.py:105-110 | every preset under rotation 0 or 180 ends wide or square |
| Pipeline.ScenarioNoUpload | eink_create_img.py:86-120 | "Hi" centred on 296x128 with no target gives an unrotated 296x128 image, no request and exit 0 |
| Pipeline.ScenarioUploadAccepted | eink_create_img.py:118-137 | with both keys and an answer of 200, exactly the expected request is posted and the run exits 0 |
| Pipeline.ScenarioUnreachable | eink_create_img.py:131-148 | a connection error still gives an image and one attempted request, and the run exits 1 |

## Left out

- Font loading, text measurement and glyph rasterisation (lines 65-67, 84) are library calls. They enter as the `Renderer` parameter: whether a font loads, the bounding box, and the ink pixels relative to the draw point. Only `Composition.MiddleInvisibleOn296x128` and `Composition.AlignedInkEdges` assume that the box bounds the ink (`InkInBox`); nothing else relates `measure` to `ink`.
- Pixel content of the rotation (line 110) is library behaviour; only its effect on the image size is modelled.
- Conversion to RGB and JPEG encoding and saving (lines 113-116) are codec and file I/O. A failed save (an unwritable path) is therefore not modelled.
- The HTTP POST (lines 123-132) is network I/O. Its outcome is the `send` parameter, and the opened file handle is not modelled.
- `Logger` (lines 8-26), `Payload` JSON decoding (lines 29-31) and argument parsing (lines 151-191) are output and glue. The rotation choice {0, 180} (line 165) and the size choice (line 168) appear as preconditions.
- The per-line angle `a` is kept in `Line` but never read, as in the program.
- A `Line` colour is typed as a palette index 0..2 and x/y literals as integers. The program takes whatever JSON supplies and leaves bad values to the drawing library.
- Pipeline.Run: an uncaught exception (a font that does not load, or a target missing exactly one key) is modelled as exit status 1, the interpreter's status for an unhandled error. The traceback it prints is not modelled.
