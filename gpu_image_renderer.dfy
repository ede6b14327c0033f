/**
 * GPUImageRenderer: the GL renderer that owns the input image's texture, two
 * FIFO queues of deferred runnables drained once per frame, and the
 * rotation, flip and scale settings that decide how the image fills the
 * output surface.
 */
module Renderer {
  import opened Wrappers
  import opened Graphics

  /** `NO_IMAGE`: the texture id meaning "no image loaded"; the same value as `OpenGlUtils.NO_TEXTURE`. */
  const NoImage: int := -1

  datatype Rotation = Normal | Rotation90 | Rotation180 | Rotation270

  datatype ScaleType = CenterInside | CenterCrop

  /**
   * What the float ratios of `adjustImageScaling` are computed from: the
   * output size after the rotation swap, and the image size.
   */
  datatype Fit = Fit(outputWidth: int, outputHeight: int, imageWidth: int, imageHeight: int)

  /** The contents of `glCubeBuffer`: the plain cube, or the cube scaled to the fit. */
  datatype CubeCoords = Cube | ScaledCube(fit: Fit)

  /**
   * The contents of `glTextureBuffer`: the texture coordinates for a rotation
   * and flips, either as they are or cropped to the fit.
   */
  datatype TextureCoords =
    | RotatedCoords(rotation: Rotation, flipHorizontal: bool, flipVertical: bool)
    | CroppedCoords(rotation: Rotation, flipHorizontal: bool, flipVertical: bool, fit: Fit)

  /** The deferred runnables, named after the renderer method that queues each. */
  datatype Task =
    | PreviewFrameTask(width: int, height: int)
    | SurfaceTextureTask
    | SetFilterTask(filter: nat)
    | DeleteImageTask
    | SetImageBitmapTask(bitmap: Bitmap, recycle: bool)
    | PostedTask(id: int)   // a runnable queued by code outside the renderer

  /** What the renderer does that outlives a call: GL work and filter calls, in order. */
  datatype Event =
    | ClearedFrame
    | Ran(task: Task)
    | TextureUploaded(name: int, width: int, height: int)
    | TextureDeleted(name: int)
    | FilterResized(filter: nat, width: int, height: int)
    | FilterChanged(oldFilter: nat, newFilter: nat, width: int, height: int)
    | FilterDrew(textureId: int, cube: CubeCoords, texture: TextureCoords)
    | SurfaceTextureUpdated

  /** The renderer's fields other than its two queues, as a value. */
  datatype RenderState = RenderState(
    filter: nat,
    glTextureId: int,
    hasSurfaceTexture: bool,
    outputWidth: int,
    outputHeight: int,
    imageWidth: int,
    imageHeight: int,
    addedPadding: int,
    rotation: Rotation,
    flipHorizontal: bool,
    flipVertical: bool,
    scaleType: ScaleType,
    cube: CubeCoords,
    texture: TextureCoords,
    nextTextureName: int,
    trace: seq<Event>)

  datatype QueueName = DrawQueue | DrawEndQueue

  // ---------------------------------------------------------------------
  // Specification of the renderer's steps
  // ---------------------------------------------------------------------

  /** A loaded image carries a name the driver has handed out. */
  predicate ValidState(s: RenderState)
  {
    s.nextTextureName > 0 && (s.glTextureId == NoImage || 0 < s.glTextureId < s.nextTextureName)
  }

  /** The output size with width and height swapped for a quarter turn. */
  function Oriented(rotation: Rotation, width: int, height: int): (int, int)
  {
    if rotation == Rotation270 || rotation == Rotation90 then (height, width) else (width, height)
  }

  /** For a non-square output, the sizes are swapped exactly for 90 and 270 degrees. */
  lemma OrientedSwapsQuarterTurns(rotation: Rotation, width: int, height: int)
    requires width != height
    ensures Oriented(rotation, width, height) == (height, width) <==> rotation in {Rotation90, Rotation270}
    ensures Oriented(rotation, width, height) == (width, height) <==> rotation in {Normal, Rotation180}
  {
  }

  /** `adjustImageScaling`: rewrites both buffers from the settings and sizes. */
  function Adjusted(s: RenderState): RenderState
  {
    var (w, h) := Oriented(s.rotation, s.outputWidth, s.outputHeight);
    var fit := Fit(w, h, s.imageWidth, s.imageHeight);
    if s.scaleType == CenterCrop then
      s.(cube := Cube, texture := CroppedCoords(s.rotation, s.flipHorizontal, s.flipVertical, fit))
    else
      s.(cube := ScaledCube(fit), texture := RotatedCoords(s.rotation, s.flipHorizontal, s.flipVertical))
  }

  /**
   * CENTER_CROP transforms only the texture coordinates and leaves the plain
   * cube; every other scale type transforms only the cube and leaves the plain
   * rotated coordinates. Nothing but the two buffers changes.
   */
  lemma AdjustedRewritesOneBuffer(s: RenderState)
    ensures s.scaleType == CenterCrop <==> Adjusted(s).cube == Cube
    ensures s.scaleType == CenterCrop <==> Adjusted(s).texture.CroppedCoords?
    ensures s.scaleType != CenterCrop ==>
      Adjusted(s).texture == RotatedCoords(s.rotation, s.flipHorizontal, s.flipVertical)
    ensures Adjusted(s).(cube := s.cube, texture := s.texture) == s
  {
  }

  /**
   * The fit `adjustImageScaling` uses, held by the cropped texture
   * coordinates under CENTER_CROP and by the scaled cube otherwise, swaps the
   * output sizes exactly for a quarter turn.
   */
  lemma AdjustedFitOrientation(s: RenderState)
    ensures s.scaleType == CenterCrop ==> Adjusted(s).texture.CroppedCoords?
    ensures s.scaleType != CenterCrop ==> Adjusted(s).cube.ScaledCube?
    ensures var fit := if s.scaleType == CenterCrop then Adjusted(s).texture.fit else Adjusted(s).cube.fit;
      && fit.imageWidth == s.imageWidth && fit.imageHeight == s.imageHeight
      && (s.rotation in {Rotation90, Rotation270} ==>
            fit.outputWidth == s.outputHeight && fit.outputHeight == s.outputWidth)
      && (s.rotation !in {Rotation90, Rotation270} ==>
            fit.outputWidth == s.outputWidth && fit.outputHeight == s.outputHeight)
  {
  }

  /**
   * Uploading pixels of the given size into the image texture: a new
   * texture gets the driver's next fresh name, an existing one is reused.
   */
  function Upload(s: RenderState, width: int, height: int): RenderState
  {
    var name := if s.glTextureId == NoTexture then s.nextTextureName else s.glTextureId;
    s.(glTextureId := name,
       nextTextureName := if s.glTextureId == NoTexture then s.nextTextureName + 1 else s.nextTextureName,
       trace := s.trace + [TextureUploaded(name, width, height)])
  }

  /** The width `setImageBitmap` pads a bitmap to: the next even number. */
  function PaddedWidth(width: nat): nat
  {
    if width % 2 == 1 then width + 1 else width
  }

  /** Running one deferred runnable. */
  function Step(s: RenderState, t: Task): RenderState
  {
    var s := s.(trace := s.trace + [Ran(t)]);
    match t
    case PreviewFrameTask(width, height) =>
      PreviewFrameLoaded(s, width, height)
    case SurfaceTextureTask =>
      s.(hasSurfaceTexture := true)
    case SetFilterTask(f) =>
      s.(filter := f, trace := s.trace + [FilterChanged(s.filter, f, s.outputWidth, s.outputHeight)])
    case DeleteImageTask =>
      s.(glTextureId := NoImage, trace := s.trace + [TextureDeleted(s.glTextureId)])
    case SetImageBitmapTask(b, _) =>
      BitmapLoaded(s, b)
    case PostedTask(_) =>
      s
  }

  /** The preview runnable: uploads the converted frame and re-fits when the frame width changed. */
  function PreviewFrameLoaded(s: RenderState, width: int, height: int): RenderState
  {
    var u := Upload(s, width, height);
    if u.imageWidth != width then Adjusted(u.(imageWidth := width, imageHeight := height)) else u
  }

  /** The bitmap runnable: uploads the bitmap padded to an even width and re-fits to its own size. */
  function BitmapLoaded(s: RenderState, b: Bitmap): RenderState
  {
    var padded := s.(addedPadding := if b.width % 2 == 1 then 1 else 0);
    var u := Upload(padded, PaddedWidth(b.width), b.height);
    Adjusted(u.(imageWidth := b.width, imageHeight := b.height))
  }

  /** Running a queue's runnables in FIFO order. */
  function RunTasks(s: RenderState, ts: seq<Task>): RenderState
    decreases |ts|
  {
    if ts == [] then s else RunTasks(Step(s, ts[0]), ts[1..])
  }

  /** `onDrawFrame`: clear, the run-on-draw queue, the filter's draw, the run-on-draw-end queue. */
  function Frame(s: RenderState, draw: seq<Task>, drawEnd: seq<Task>): RenderState
  {
    SurfaceUpdated(RunTasks(DrawnState(s, draw), drawEnd))
  }

  /** The state the filter draws in: the cleared frame after the run-on-draw queue, with the draw recorded. */
  function DrawnState(s: RenderState, draw: seq<Task>): RenderState
  {
    var a := RunTasks(s.(trace := s.trace + [ClearedFrame]), draw);
    a.(trace := a.trace + [FilterDrew(a.glTextureId, a.cube, a.texture)])
  }

  /** The end of a frame: the camera's surface texture, once set up, is updated. */
  function SurfaceUpdated(c: RenderState): RenderState
  {
    if c.hasSurfaceTexture then c.(trace := c.trace + [SurfaceTextureUpdated]) else c
  }

  // ---------------------------------------------------------------------
  // Properties of the steps
  // ---------------------------------------------------------------------

  /** Every runnable keeps texture names consistent with the driver's supply. */
  lemma StepValid(s: RenderState, t: Task)
    requires ValidState(s)
    ensures ValidState(Step(s, t))
  {
  }

  /** Running `a` then `b` is running `a + b`: the queue is one FIFO sequence. */
  lemma {:induction false} RunTasksAppend(s: RenderState, a: seq<Task>, b: seq<Task>)
    ensures RunTasks(s, a + b) == RunTasks(RunTasks(s, a), b)
    decreases |a|
  {
    if a != [] {
      assert (a + b)[0] == a[0] && (a + b)[1..] == a[1..] + b;
      RunTasksAppend(Step(s, a[0]), a[1..], b);
    } else {
      assert a + b == b;
    }
  }

  /** `setImageBitmap`'s runnable pads odd widths by one and records the unpadded size. */
  lemma SetImageBitmapPadding(s: RenderState, b: Bitmap, recycle: bool)
    ensures var r := Step(s, SetImageBitmapTask(b, recycle));
      && (r.addedPadding == 1 <==> b.width % 2 == 1)
      && (r.addedPadding == 0 <==> b.width % 2 == 0)
      && r.imageWidth == b.width && r.imageHeight == b.height
      && r.trace == s.trace + [Ran(SetImageBitmapTask(b, recycle)),
                               TextureUploaded(r.glTextureId, b.width + r.addedPadding, b.height)]
      && (b.width + r.addedPadding) % 2 == 0
  {
  }

  /** `deleteImage`'s runnable deletes the image texture and returns to `NO_IMAGE`. */
  lemma DeleteImageResets(s: RenderState)
    ensures var r := Step(s, DeleteImageTask);
      r.glTextureId == NoImage && r.trace == s.trace + [Ran(DeleteImageTask), TextureDeleted(s.glTextureId)]
  {
  }

  /**
   * After `deleteImage`, the next bitmap is not written into the deleted
   * texture: the upload generates a new name from the driver and uploads
   * under it.
   */
  lemma UploadAfterDeleteIsFresh(s: RenderState, b: Bitmap, recycle: bool)
    requires ValidState(s)
    ensures var r := Step(Step(s, DeleteImageTask), SetImageBitmapTask(b, recycle));
      && r.glTextureId == s.nextTextureName && r.nextTextureName == s.nextTextureName + 1
      && r.trace[|r.trace| - 1] == TextureUploaded(s.nextTextureName, PaddedWidth(b.width), b.height)
  {
    var d := Step(s, DeleteImageTask);
    var d1 := d.(trace := d.trace + [Ran(SetImageBitmapTask(b, recycle))]);
    assert Step(d, SetImageBitmapTask(b, recycle)) == BitmapLoaded(d1, b);
    var u := Upload(d1.(addedPadding := if b.width % 2 == 1 then 1 else 0), PaddedWidth(b.width), b.height);
    assert u.glTextureId == s.nextTextureName;
    AdjustedRewritesOneBuffer(u.(imageWidth := b.width, imageHeight := b.height));
  }

  /** A queue that ends with `deleteImage` leaves no image for the filter to draw. */
  lemma DeleteLastLeavesNoImage(s: RenderState, ts: seq<Task>)
    ensures RunTasks(s, ts + [DeleteImageTask]).glTextureId == NoImage
  {
    RunTasksAppend(s, ts, [DeleteImageTask]);
    var m := RunTasks(s, ts);
    assert RunTasks(m, [DeleteImageTask]) == Step(m, DeleteImageTask);
  }

  /** The runnables recorded in a trace, in order. */
  function Runs(trace: seq<Event>): seq<Task>
  {
    if trace == [] then []
    else Runs(trace[..|trace| - 1]) + (if trace[|trace| - 1].Ran? then [trace[|trace| - 1].task] else [])
  }

  /** The number of filter draws in a trace. */
  function Draws(trace: seq<Event>): nat
  {
    if trace == [] then 0
    else Draws(trace[..|trace| - 1]) + (if trace[|trace| - 1].FilterDrew? then 1 else 0)
  }

  lemma {:induction false} TraceAppend(a: seq<Event>, b: seq<Event>)
    ensures Runs(a + b) == Runs(a) + Runs(b)
    ensures Draws(a + b) == Draws(a) + Draws(b)
    decreases |b|
  {
    if b == [] {
      assert a + b == a;
    } else {
      assert (a + b)[..|a + b| - 1] == a + b[..|b| - 1];
      TraceAppend(a, b[..|b| - 1]);
    }
  }

  lemma TraceOne(e: Event)
    ensures Runs([e]) == (if e.Ran? then [e.task] else [])
    ensures Draws([e]) == (if e.FilterDrew? then 1 else 0)
  {
    assert [e][..0] == [];
  }

  /** What a trace gains between two states. */
  predicate Extends(before: seq<Event>, after: seq<Event>, ran: seq<Task>)
  {
    && |before| <= |after| && after[..|before|] == before
    && Runs(after[|before|..]) == ran && Draws(after[|before|..]) == 0
  }

  /** A trace grown by one `Ran` record and at most one other event that is neither a run nor a draw. */
  lemma ExtendsByRun(before: seq<Event>, t: Task, others: seq<Event>)
    requires |others| <= 1
    requires forall e | e in others :: !e.Ran? && !e.FilterDrew?
    ensures Extends(before, before + [Ran(t)] + others, [t])
  {
    var after := before + [Ran(t)] + others;
    assert after[..|before|] == before;
    assert after[|before|..] == [Ran(t)] + others;
    TraceAppend([Ran(t)], others);
    TraceOne(Ran(t));
    if others != [] {
      assert others == [others[0]];
      TraceOne(others[0]);
    } else {
      assert [Ran(t)] + others == [Ran(t)];
    }
  }

  /** A runnable adds to the trace its own `Ran` record and no filter draw. */
  lemma StepTrace(s: RenderState, t: Task)
    ensures Extends(s.trace, Step(s, t).trace, [t])
  {
    var name := if s.glTextureId == NoTexture then s.nextTextureName else s.glTextureId;
    var others: seq<Event> := match t
      case PreviewFrameTask(w, h) => [TextureUploaded(name, w, h)]
      case SetFilterTask(f) => [FilterChanged(s.filter, f, s.outputWidth, s.outputHeight)]
      case DeleteImageTask => [TextureDeleted(s.glTextureId)]
      case SetImageBitmapTask(b, _) => [TextureUploaded(name, PaddedWidth(b.width), b.height)]
      case _ => [];
    assert Step(s, t).trace == s.trace + [Ran(t)] + others;
    ExtendsByRun(s.trace, t, others);
  }

  /** Running a queue records exactly its runnables, in FIFO order, and draws nothing. */
  lemma {:induction false} RunTasksTrace(s: RenderState, ts: seq<Task>)
    ensures Extends(s.trace, RunTasks(s, ts).trace, ts)
    decreases |ts|
  {
    if ts == [] {
      assert s.trace[|s.trace|..] == [];
    } else {
      var m := Step(s, ts[0]);
      StepTrace(s, ts[0]);
      RunTasksTrace(m, ts[1..]);
      var f := RunTasks(m, ts[1..]).trace;
      assert f[|s.trace|..] == m.trace[|s.trace|..] + f[|m.trace|..];
      TraceAppend(m.trace[|s.trace|..], f[|m.trace|..]);
      assert [ts[0]] + ts[1..] == ts;
    }
  }

  /** Before the draw: the clear, then the run-on-draw runnables. */
  lemma FrameBeforeDraw(s: RenderState, draw: seq<Task>)
    ensures var a := RunTasks(s.(trace := s.trace + [ClearedFrame]), draw);
      && |s.trace| < |a.trace| && a.trace[..|s.trace| + 1] == s.trace + [ClearedFrame]
      && Runs(a.trace[|s.trace|..]) == draw && Draws(a.trace[|s.trace|..]) == 0
  {
    var s0 := s.(trace := s.trace + [ClearedFrame]);
    var a := RunTasks(s0, draw);
    RunTasksTrace(s0, draw);
    assert a.trace[..|s.trace| + 1] == s0.trace;
    assert a.trace[|s.trace|..] == [ClearedFrame] + a.trace[|s0.trace|..];
    TraceAppend([ClearedFrame], a.trace[|s0.trace|..]);
    TraceOne(ClearedFrame);
  }

  /** After the draw: the run-on-draw-end runnables, then perhaps the surface-texture update. */
  lemma FrameAfterDraw(b: RenderState, drawEnd: seq<Task>)
    ensures var f := SurfaceUpdated(RunTasks(b, drawEnd)).trace;
      && |b.trace| <= |f| && f[..|b.trace|] == b.trace
      && Runs(f[|b.trace|..]) == drawEnd && Draws(f[|b.trace|..]) == 0
  {
    var c := RunTasks(b, drawEnd);
    RunTasksTrace(b, drawEnd);
    var tail := if c.hasSurfaceTexture then [SurfaceTextureUpdated] else [];
    var f := c.trace + tail;
    assert SurfaceUpdated(c).trace == f;
    assert f[..|b.trace|] == b.trace;
    assert f[|b.trace|..] == c.trace[|b.trace|..] + tail;
    TraceAppend(c.trace[|b.trace|..], tail);
    TraceOne(SurfaceTextureUpdated);
    assert [] + [] == tail || tail == [SurfaceTextureUpdated];
  }

  /** A trace made of a cleared prefix with one queue's runs, one draw, and a tail with the other queue's runs. */
  lemma SplitAtDraw(pre: seq<Event>, a: seq<Event>, drew: Event, tail: seq<Event>, draw: seq<Task>, drawEnd: seq<Task>)
    requires |pre| < |a| && a[..|pre| + 1] == pre + [ClearedFrame]
    requires Runs(a[|pre|..]) == draw && Draws(a[|pre|..]) == 0
    requires Runs(tail) == drawEnd && Draws(tail) == 0
    ensures var f := a + [drew] + tail;
      exists k :: |pre| < k < |f|
        && f[..|pre| + 1] == pre + [ClearedFrame]
        && f[k] == drew
        && Runs(f[|pre|..k]) == draw && Draws(f[|pre|..k]) == 0
        && Runs(f[k + 1..]) == drawEnd && Draws(f[k + 1..]) == 0
  {
    var f := a + [drew] + tail;
    var k := |a|;
    assert f[..|pre| + 1] == a[..|pre| + 1];
    assert f[|pre|..k] == a[|pre|..];
    assert f[k + 1..] == tail;
    assert f[k] == drew;
  }

  /**
   * A frame runs every run-on-draw runnable before the filter draws and
   * every run-on-draw-end runnable after it, each queue in FIFO order, and
   * the filter draws exactly once, with the texture and buffers the first
   * queue left.
   */
  lemma FrameOrder(s: RenderState, draw: seq<Task>, drawEnd: seq<Task>)
    ensures var f := Frame(s, draw, drawEnd).trace;
      var a := RunTasks(s.(trace := s.trace + [ClearedFrame]), draw);
      exists k :: |s.trace| < k < |f|
        && f[..|s.trace| + 1] == s.trace + [ClearedFrame]
        && f[k] == FilterDrew(a.glTextureId, a.cube, a.texture)
        && Runs(f[|s.trace|..k]) == draw && Draws(f[|s.trace|..k]) == 0
        && Runs(f[k + 1..]) == drawEnd && Draws(f[k + 1..]) == 0
  {
    var a := RunTasks(s.(trace := s.trace + [ClearedFrame]), draw);
    var drew := FilterDrew(a.glTextureId, a.cube, a.texture);
    var b := DrawnState(s, draw);
    var f := SurfaceUpdated(RunTasks(b, drawEnd)).trace;
    assert Frame(s, draw, drawEnd).trace == f;
    FrameBeforeDraw(s, draw);
    FrameAfterDraw(b, drawEnd);
    var tail := f[|b.trace|..];
    assert b.trace == a.trace + [drew];
    assert f == b.trace + tail;
    SplitAtDraw(s.trace, a.trace, drew, tail, draw, drawEnd);
  }

  /**
   * `addDistance`: a texture coordinate of 0 moves in by `distance`, any
   * other moves to `1 - distance`.
   */
  function AddDistance(coordinate: real, distance: real): real
  {
    if coordinate == 0.0 then distance else 1.0 - distance
  }

  /** The CENTER_CROP rewrite of eight texture coordinates: x slots by `distHorizontal`, y slots by `distVertical`. */
  function CropTextureCoords(coords: seq<real>, distHorizontal: real, distVertical: real): (r: seq<real>)
    requires |coords| == 8
    ensures |r| == 8
    ensures forall i :: 0 <= i < 8 && (coords[i] == 0.0 || coords[i] == 1.0) ==>
      r[i] == coords[i] + (1.0 - 2.0 * coords[i]) * (if i % 2 == 0 then distHorizontal else distVertical)
    ensures forall i :: 0 <= i < 8 && coords[i] != 0.0 ==>
      r[i] == 1.0 - (if i % 2 == 0 then distHorizontal else distVertical)
  {
    seq(8, i requires 0 <= i < 8 =>
      AddDistance(coords[i], if i % 2 == 0 then distHorizontal else distVertical))
  }

  /**
   * On coordinates of the unit square, cropping moves 0 and 1 symmetrically
   * inwards by the same distance, and a distance of 0 changes nothing.
   */
  lemma AddDistanceOnUnitSquare(distance: real)
    ensures AddDistance(0.0, distance) + AddDistance(1.0, distance) == 1.0
    ensures AddDistance(0.0, 0.0) == 0.0 && AddDistance(1.0, 0.0) == 1.0
    ensures 0.0 <= distance <= 0.5 ==> AddDistance(0.0, distance) <= AddDistance(1.0, distance)
  {
  }

  /** Cropping unit-square coordinates by zero distances is the identity. */
  lemma CropByZeroIsIdentity(coords: seq<real>)
    requires |coords| == 8
    requires forall i :: 0 <= i < 8 ==> coords[i] == 0.0 || coords[i] == 1.0
    ensures CropTextureCoords(coords, 0.0, 0.0) == coords
  {
    var r := CropTextureCoords(coords, 0.0, 0.0);
    forall i | 0 <= i < 8 ensures r[i] == coords[i] {
      AddDistanceOnUnitSquare(0.0);
    }
  }

  // ---------------------------------------------------------------------
  // The renderer object
  // ---------------------------------------------------------------------

  /** Only the head of a queue can be a preview-conversion runnable. */
  predicate PreviewOnlyAtHead(q: seq<Task>)
  {
    forall k :: 0 <= k < |q| && q[k].PreviewFrameTask? ==> k == 0
  }

  /**
   * The renderer. `filter` names the current filter; `glCube` and
   * `glTexture` stand for the two coordinate buffers; `rgbBufferLength` is
   * the capacity of the preview-frame RGB buffer once allocated;
   * `nextTextureName` stands for the GL driver's supply of fresh names and
   * `trace` records the GL and filter work done.
   */
  class GPUImageRenderer {
    var filter: nat
    var glTextureId: int
    var hasSurfaceTexture: bool
    var rgbBufferLength: Option<int>
    var outputWidth: int
    var outputHeight: int
    var imageWidth: int
    var imageHeight: int
    var addedPadding: int
    var runOnDraw: seq<Task>
    var runOnDrawEnd: seq<Task>
    var rotation: Rotation
    var flipHorizontal: bool
    var flipVertical: bool
    var scaleType: ScaleType
    var glCube: CubeCoords
    var glTexture: TextureCoords
    var nextTextureName: int
    var trace: seq<Event>

    function State(): RenderState
      reads this
    {
      RenderState(filter, glTextureId, hasSurfaceTexture, outputWidth, outputHeight, imageWidth, imageHeight,
            addedPadding, rotation, flipHorizontal, flipVertical, scaleType, glCube, glTexture,
            nextTextureName, trace)
    }

    function Queue(which: QueueName): seq<Task>
      reads this
    {
      if which == DrawQueue then runOnDraw else runOnDrawEnd
    }

    /** Texture names are consistent, and at most one preview conversion is pending (at the head). */
    ghost predicate Valid()
      reads this
    {
      ValidState(State()) && PreviewOnlyAtHead(runOnDraw)
    }

    constructor (filter: nat)
      ensures Valid()
      ensures runOnDraw == [] && runOnDrawEnd == [] && rgbBufferLength == None
      ensures State() == Adjusted(RenderState(filter, NoImage, false, 0, 0, 0, 0, 0, Normal, false, false,
                                        CenterCrop, Cube, RotatedCoords(Normal, false, false), 1, []))
    {
      this.filter := filter;
      glTextureId := NoImage;
      hasSurfaceTexture := false;
      rgbBufferLength := None;
      outputWidth, outputHeight, imageWidth, imageHeight, addedPadding := 0, 0, 0, 0, 0;
      runOnDraw, runOnDrawEnd := [], [];
      scaleType := CenterCrop;
      glCube := Cube;
      glTexture := RotatedCoords(Normal, false, false);
      nextTextureName := 1;
      trace := [];
      rotation, flipHorizontal, flipVertical := Normal, false, false;
      new;
      SetRotationAndFlip(Normal, false, false);
    }

    /** `onSurfaceChanged`: records the output size, passes it to the filter and re-fits the image. */
    method OnSurfaceChanged(width: int, height: int)
      requires Valid()
      modifies this
      ensures Valid()
      ensures State() == Adjusted(old(State()).(outputWidth := width, outputHeight := height,
                                   trace := old(trace) + [FilterResized(old(filter), width, height)]))
      ensures runOnDraw == old(runOnDraw) && runOnDrawEnd == old(runOnDrawEnd) && rgbBufferLength == old(rgbBufferLength)
    {
      outputWidth := width;
      outputHeight := height;
      trace := trace + [FilterResized(filter, width, height)];
      AdjustImageScaling();
    }

    /** `onDrawFrame`. */
    method OnDrawFrame()
      requires Valid()
      modifies this
      ensures Valid()
      ensures runOnDraw == [] && runOnDrawEnd == [] && rgbBufferLength == old(rgbBufferLength)
      ensures State() == Frame(old(State()), old(runOnDraw), old(runOnDrawEnd))
    {
      trace := trace + [ClearedFrame];
      ghost var cleared := State();
      RunAll(DrawQueue);
      assert State() == RunTasks(cleared, old(runOnDraw));
      trace := trace + [FilterDrew(glTextureId, glCube, glTexture)];
      ghost var drawn := State();
      assert drawn == DrawnState(old(State()), old(runOnDraw));
      RunAll(DrawEndQueue);
      assert State() == RunTasks(drawn, old(runOnDrawEnd));
      if hasSurfaceTexture {
        trace := trace + [SurfaceTextureUpdated];
      }
    }

    /** `runAll`: drains one queue, running each runnable as it is taken off the head. */
    method RunAll(which: QueueName)
      requires Valid()
      modifies this
      ensures Valid()
      ensures Queue(which) == []
      ensures which == DrawQueue ==> runOnDrawEnd == old(runOnDrawEnd)
      ensures which == DrawEndQueue ==> runOnDraw == old(runOnDraw)
      ensures State() == RunTasks(old(State()), old(Queue(which))) && rgbBufferLength == old(rgbBufferLength)
    {
      while Queue(which) != []
        invariant Valid()
        invariant RunTasks(State(), Queue(which)) == RunTasks(old(State()), old(Queue(which)))
        invariant which == DrawQueue ==> runOnDrawEnd == old(runOnDrawEnd)
        invariant which == DrawEndQueue ==> runOnDraw == old(runOnDraw)
        invariant rgbBufferLength == old(rgbBufferLength)
        decreases |Queue(which)|
      {
        var t := Queue(which)[0];
        if which == DrawQueue {
          runOnDraw := runOnDraw[1..];
        } else {
          runOnDrawEnd := runOnDrawEnd[1..];
        }
        RunTask(t);
      }
    }

    /** Runs one deferred runnable. */
    method RunTask(t: Task)
      requires Valid()
      modifies this
      ensures Valid()
      ensures State() == Step(old(State()), t)
      ensures runOnDraw == old(runOnDraw) && runOnDrawEnd == old(runOnDrawEnd) && rgbBufferLength == old(rgbBufferLength)
    {
      trace := trace + [Ran(t)];
      match t
      case PreviewFrameTask(width, height) =>
        LoadPreviewFrame(width, height);
      case SurfaceTextureTask =>
        // The camera calls on the new surface texture are external.
        hasSurfaceTexture := true;
      case SetFilterTask(f) =>
        var oldFilter := filter;
        filter := f;
        trace := trace + [FilterChanged(oldFilter, f, outputWidth, outputHeight)];
      case DeleteImageTask =>
        trace := trace + [TextureDeleted(glTextureId)];
        glTextureId := NoImage;
      case SetImageBitmapTask(b, _) =>
        LoadBitmap(b);
      case PostedTask(_) =>
    }

    /** The body of `onPreviewFrame`'s runnable. */
    method LoadPreviewFrame(width: int, height: int)
      requires ValidState(State())
      modifies this
      ensures ValidState(State())
      ensures State() == PreviewFrameLoaded(old(State()), width, height)
      ensures runOnDraw == old(runOnDraw) && runOnDrawEnd == old(runOnDrawEnd) && rgbBufferLength == old(rgbBufferLength)
    {
      // The YUV to RGBA conversion into the RGB buffer is native code.
      LoadTexture(width, height);
      if imageWidth != width {
        imageWidth := width;
        imageHeight := height;
        AdjustImageScaling();
      }
    }

    /** The body of `setImageBitmap`'s runnable. */
    method LoadBitmap(b: Bitmap)
      requires ValidState(State())
      modifies this
      ensures ValidState(State())
      ensures State() == BitmapLoaded(old(State()), b)
      ensures runOnDraw == old(runOnDraw) && runOnDrawEnd == old(runOnDrawEnd) && rgbBufferLength == old(rgbBufferLength)
    {
      var uploadWidth := b.width;
      if b.width % 2 == 1 {
        uploadWidth := b.width + 1;
        addedPadding := 1;
      } else {
        addedPadding := 0;
      }
      assert uploadWidth == PaddedWidth(b.width);
      LoadTexture(uploadWidth, b.height);
      imageWidth := b.width;
      imageHeight := b.height;
      AdjustImageScaling();
    }

    /** Uploads pixels of the given size into the image texture. */
    method LoadTexture(width: int, height: int)
      requires ValidState(State())
      modifies this
      ensures ValidState(State())
      ensures State() == Upload(old(State()), width, height)
      ensures runOnDraw == old(runOnDraw) && runOnDrawEnd == old(runOnDrawEnd) && rgbBufferLength == old(rgbBufferLength)
    {
      if glTextureId == NoTexture {
        glTextureId := nextTextureName;
        nextTextureName := nextTextureName + 1;
      }
      trace := trace + [TextureUploaded(glTextureId, width, height)];
    }

    /** `onPreviewFrame`: queues a conversion of the frame only when the run-on-draw queue is empty. */
    method OnPreviewFrame(width: int, height: int)
      requires Valid()
      modifies this
      ensures Valid()
      ensures old(runOnDraw) == [] ==> runOnDraw == [PreviewFrameTask(width, height)]
      ensures old(runOnDraw) != [] ==> runOnDraw == old(runOnDraw)
      ensures rgbBufferLength == if old(rgbBufferLength).None? then Some(width * height) else old(rgbBufferLength)
      ensures State() == old(State()) && runOnDrawEnd == old(runOnDrawEnd)
    {
      if rgbBufferLength.None? {
        rgbBufferLength := Some(width * height);
      }
      if runOnDraw == [] {
        RunOnDraw(PreviewFrameTask(width, height));
      }
    }

    /** `setUpSurfaceTexture`: queues the creation of the camera's surface texture. */
    method SetUpSurfaceTexture()
      requires Valid()
      modifies this
      ensures Valid()
      ensures runOnDraw == old(runOnDraw) + [SurfaceTextureTask]
      ensures State() == old(State()) && runOnDrawEnd == old(runOnDrawEnd) && rgbBufferLength == old(rgbBufferLength)
    {
      RunOnDraw(SurfaceTextureTask);
    }

    /** `setFilter`: queues the switch to filter `f`. */
    method SetFilter(f: nat)
      requires Valid()
      modifies this
      ensures Valid()
      ensures runOnDraw == old(runOnDraw) + [SetFilterTask(f)]
      ensures State() == old(State()) && runOnDrawEnd == old(runOnDrawEnd) && rgbBufferLength == old(rgbBufferLength)
    {
      RunOnDraw(SetFilterTask(f));
    }

    /** `deleteImage`: queues the deletion of the image texture. */
    method DeleteImage()
      requires Valid()
      modifies this
      ensures Valid()
      ensures runOnDraw == old(runOnDraw) + [DeleteImageTask]
      ensures State() == old(State()) && runOnDrawEnd == old(runOnDrawEnd) && rgbBufferLength == old(rgbBufferLength)
    {
      RunOnDraw(DeleteImageTask);
    }

    /** `setImageBitmap(bitmap, recycle)`: ignores `null`, otherwise queues the upload. */
    method SetImageBitmap(bitmap: Bitmap?, recycle: bool)
      requires Valid()
      modifies this
      ensures Valid()
      ensures bitmap == null ==> runOnDraw == old(runOnDraw)
      ensures bitmap != null ==> runOnDraw == old(runOnDraw) + [SetImageBitmapTask(bitmap, recycle)]
      ensures State() == old(State()) && runOnDrawEnd == old(runOnDrawEnd) && rgbBufferLength == old(rgbBufferLength)
    {
      if bitmap == null {
        return;
      }
      RunOnDraw(SetImageBitmapTask(bitmap, recycle));
    }

    /** `setScaleType`: takes effect at the next re-fit. */
    method SetScaleType(scaleType: ScaleType)
      requires Valid()
      modifies this
      ensures Valid()
      ensures State() == old(State()).(scaleType := scaleType)
      ensures runOnDraw == old(runOnDraw) && runOnDrawEnd == old(runOnDrawEnd) && rgbBufferLength == old(rgbBufferLength)
    {
      this.scaleType := scaleType;
    }

    /** `adjustImageScaling`. */
    method AdjustImageScaling()
      requires ValidState(State())
      modifies this
      ensures ValidState(State())
      ensures State() == Adjusted(old(State()))
      ensures runOnDraw == old(runOnDraw) && runOnDrawEnd == old(runOnDrawEnd) && rgbBufferLength == old(rgbBufferLength)
    {
      var w, h := outputWidth, outputHeight;
      if rotation == Rotation270 || rotation == Rotation90 {
        w, h := outputHeight, outputWidth;
      }
      var fit := Fit(w, h, imageWidth, imageHeight);
      var cube := Cube;
      var textureCords := RotatedCoords(rotation, flipHorizontal, flipVertical);
      if scaleType == CenterCrop {
        textureCords := CroppedCoords(rotation, flipHorizontal, flipVertical, fit);
      } else {
        cube := ScaledCube(fit);
      }
      glCube := cube;
      glTexture := textureCords;
    }

    /** `setRotation(rotation)`. */
    method SetRotation(rotation: Rotation)
      requires ValidState(State())
      modifies this
      ensures ValidState(State())
      ensures State() == Adjusted(old(State()).(rotation := rotation))
      ensures runOnDraw == old(runOnDraw) && runOnDrawEnd == old(runOnDrawEnd) && rgbBufferLength == old(rgbBufferLength)
    {
      this.rotation := rotation;
      AdjustImageScaling();
    }

    /** `setRotation(rotation, flipHorizontal, flipVertical)`. */
    method SetRotationAndFlip(rotation: Rotation, flipHorizontal: bool, flipVertical: bool)
      requires ValidState(State())
      modifies this
      ensures ValidState(State())
      ensures State() == Adjusted(old(State()).(rotation := rotation, flipHorizontal := flipHorizontal,
                                                flipVertical := flipVertical))
      ensures runOnDraw == old(runOnDraw) && runOnDrawEnd == old(runOnDrawEnd) && rgbBufferLength == old(rgbBufferLength)
    {
      this.flipHorizontal := flipHorizontal;
      this.flipVertical := flipVertical;
      SetRotation(rotation);
    }

    /** `setRotationCamera`: `setRotation` with the two flips exchanged. */
    method SetRotationCamera(rotation: Rotation, flipHorizontal: bool, flipVertical: bool)
      requires ValidState(State())
      modifies this
      ensures ValidState(State())
      ensures State() == Adjusted(old(State()).(rotation := rotation, flipHorizontal := flipVertical,
                                                flipVertical := flipHorizontal))
      ensures runOnDraw == old(runOnDraw) && runOnDrawEnd == old(runOnDrawEnd) && rgbBufferLength == old(rgbBufferLength)
    {
      SetRotationAndFlip(rotation, flipVertical, flipHorizontal);
    }

    /**
     * `runOnDraw`: appends at the tail. Only `onPreviewFrame` creates preview
     * runnables, and only into an empty queue.
     */
    method RunOnDraw(t: Task)
      requires Valid()
      requires t.PreviewFrameTask? ==> runOnDraw == []
      modifies this
      ensures Valid()
      ensures runOnDraw == old(runOnDraw) + [t]
      ensures State() == old(State()) && runOnDrawEnd == old(runOnDrawEnd) && rgbBufferLength == old(rgbBufferLength)
    {
      runOnDraw := runOnDraw + [t];
    }

    /** `runOnDrawEnd`: appends at the tail. */
    method RunOnDrawEnd(t: Task)
      requires Valid()
      modifies this
      ensures Valid()
      ensures runOnDrawEnd == old(runOnDrawEnd) + [t]
      ensures State() == old(State()) && runOnDraw == old(runOnDraw) && rgbBufferLength == old(rgbBufferLength)
    {
      runOnDrawEnd := runOnDrawEnd + [t];
    }
  }
}
