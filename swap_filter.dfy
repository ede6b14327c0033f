/**
 * The face-swap filter (SwapFilter.kt): the per-vertex opacity table built
 * from the face-contour indices, the vertex shader's map from landmark space
 * to clip space, the projection matrix rewritten before every draw, and the
 * life cycle of the mask texture.
 */
module FaceSwap {
  import opened Wrappers
  import opened Graphics

  // ---------------------------------------------------------------------
  // Face-contour table and the opacity array
  // ---------------------------------------------------------------------

  /** Face-mesh landmark indices on the outer face boundary, in table order. */
  const FaceContourIdx: seq<int> := [
    10,  338, 297, 332, 284, 251, 389, 356, 454, 323, 361, 288,
    397, 365, 379, 378, 400, 377, 152, 148, 176, 149, 150, 136,
    172, 58,  132, 93,  234, 127, 162, 21,  54,  103, 67,  109
  ]

  /** The largest index in the contour table. */
  const MaxContourIdx: int := 454

  predicate Distinct(s: seq<int>)
  {
    forall i, j :: 0 <= i < j < |s| ==> s[i] != s[j]
  }

  /** The slot of contour index `v` in the table, or -1 when `v` is not a contour index. */
  function ContourSlot(v: int): int
  {
    if v == 10 then 0 else
    if v == 338 then 1 else
    if v == 297 then 2 else
    if v == 332 then 3 else
    if v == 284 then 4 else
    if v == 251 then 5 else
    if v == 389 then 6 else
    if v == 356 then 7 else
    if v == 454 then 8 else
    if v == 323 then 9 else
    if v == 361 then 10 else
    if v == 288 then 11 else
    if v == 397 then 12 else
    if v == 365 then 13 else
    if v == 379 then 14 else
    if v == 378 then 15 else
    if v == 400 then 16 else
    if v == 377 then 17 else
    if v == 152 then 18 else
    if v == 148 then 19 else
    if v == 176 then 20 else
    if v == 149 then 21 else
    if v == 150 then 22 else
    if v == 136 then 23 else
    if v == 172 then 24 else
    if v == 58 then 25 else
    if v == 132 then 26 else
    if v == 93 then 27 else
    if v == 234 then 28 else
    if v == 127 then 29 else
    if v == 162 then 30 else
    if v == 21 then 31 else
    if v == 54 then 32 else
    if v == 103 then 33 else
    if v == 67 then 34 else
    if v == 109 then 35 else
    -1
  }

  /** `ContourSlot` undoes the table: looking up entry i gives back slot i. */
  lemma ContourSlotInverts()
    ensures forall i :: 0 <= i < |FaceContourIdx| ==> ContourSlot(FaceContourIdx[i]) == i
  {
  }

  /** The contour table holds 36 distinct indices. */
  lemma ContourDistinct()
    ensures |FaceContourIdx| == 36 && Distinct(FaceContourIdx)
  {
    ContourSlotInverts();
  }

  /** Every contour index lies in [0, 454], and 454 itself is one of them. */
  lemma ContourBounds()
    ensures FaceContourIdx[8] == MaxContourIdx
    ensures forall k :: 0 <= k < |FaceContourIdx| ==> 0 <= FaceContourIdx[k] <= MaxContourIdx
  {
  }

  /** The opacity given to vertex slot `i`: 0 on the face contour, 1 inside. */
  function VertexAlpha(i: int): real
  {
    if i in FaceContourIdx then 0.0 else 1.0
  }

  /** The opacity array of `n` slots, as a specification. */
  function AlphaArray(n: nat): seq<real>
  {
    seq(n, i => VertexAlpha(i))
  }

  /**
   * `create_vbo_alpha_array`: one opacity per entry of `tris` (one per
   * triangle-index slot, not one per landmark), found by a linear search of
   * the contour table that stops at the first match. The values stored in
   * `tris` are never read; only its length matters.
   */
  method CreateVboAlphaArray(tris: seq<Short>) returns (vboAlpha: seq<real>)
    ensures |vboAlpha| == |tris|
    ensures forall i :: 0 <= i < |tris| ==> (vboAlpha[i] == 0.0 <==> i in FaceContourIdx)
    ensures forall i :: 0 <= i < |tris| ==> (vboAlpha[i] == 1.0 <==> i !in FaceContourIdx)
    ensures vboAlpha == AlphaArray(|tris|)
  {
    var vtxCounts := |tris|;
    var alphaArray := new real[vtxCounts];
    for i := 0 to vtxCounts
      invariant forall k :: 0 <= k < i ==> alphaArray[k] == VertexAlpha(k)
    {
      var alpha := 1.0;
      var j := 0;
      while j < |FaceContourIdx|
        invariant 0 <= j <= |FaceContourIdx|
        invariant alpha == 1.0 && i !in FaceContourIdx[..j]
      {
        if i == FaceContourIdx[j] {
          alpha := 0.0;
          break;
        }
        j := j + 1;
      }
      assert j == |FaceContourIdx| ==> FaceContourIdx[..j] == FaceContourIdx;
      alphaArray[i] := alpha;
    }
    vboAlpha := alphaArray[..];
  }

  /** The number of zero entries in an opacity array. */
  function CountZeros(s: seq<real>): nat
  {
    if s == [] then 0
    else CountZeros(s[..|s| - 1]) + (if s[|s| - 1] == 0.0 then 1 else 0)
  }

  /** The number of entries of `cs` below `n`. */
  function CountBelow(cs: seq<int>, n: int): nat
  {
    if cs == [] then 0
    else (if cs[0] < n then 1 else 0) + CountBelow(cs[1..], n)
  }

  lemma {:induction false} CountBelowStep(cs: seq<int>, n: int)
    requires Distinct(cs)
    ensures CountBelow(cs, n + 1) == CountBelow(cs, n) + (if n in cs then 1 else 0)
  {
    if cs != [] {
      assert Distinct(cs[1..]) by {
        forall i, j | 0 <= i < j < |cs[1..]| ensures cs[1..][i] != cs[1..][j] {
          assert cs[1..][i] == cs[i + 1] && cs[1..][j] == cs[j + 1];
        }
      }
      CountBelowStep(cs[1..], n);
      assert n in cs <==> n == cs[0] || n in cs[1..];
      assert forall k :: 0 <= k < |cs[1..]| ==> cs[1..][k] == cs[k + 1];
      assert cs[0] == n ==> n !in cs[1..];
    }
  }

  lemma {:induction false} CountBelowAll(cs: seq<int>, n: int)
    requires forall k :: 0 <= k < |cs| ==> cs[k] < n
    ensures CountBelow(cs, n) == |cs|
  {
    if cs != [] {
      CountBelowAll(cs[1..], n);
    }
  }

  lemma {:induction false} CountBelowMissing(cs: seq<int>, n: int, k: int)
    requires 0 <= k < |cs| && cs[k] >= n
    ensures CountBelow(cs, n) < |cs|
  {
    if k == 0 {
      assert CountBelow(cs[1..], n) <= |cs[1..]| by { CountBelowBound(cs[1..], n); }
    } else {
      CountBelowMissing(cs[1..], n, k - 1);
    }
  }

  lemma {:induction false} CountBelowBound(cs: seq<int>, n: int)
    ensures CountBelow(cs, n) <= |cs|
  {
    if cs != [] {
      CountBelowBound(cs[1..], n);
    }
  }

  /** The zero entries of an opacity array of `n` slots are the contour indices below `n`. */
  lemma {:induction false} ZerosAreContourSlots(n: nat)
    ensures CountZeros(AlphaArray(n)) == CountBelow(FaceContourIdx, n)
  {
    if n == 0 {
      assert AlphaArray(0) == [];
      ContourBounds();
      CountBelowAll0(FaceContourIdx);
    } else {
      assert AlphaArray(n)[..n - 1] == AlphaArray(n - 1);
      ZerosAreContourSlots(n - 1);
      ContourDistinct();
      CountBelowStep(FaceContourIdx, n - 1);
    }
  }

  lemma {:induction false} CountBelowAll0(cs: seq<int>)
    requires forall k :: 0 <= k < |cs| ==> cs[k] >= 0
    ensures CountBelow(cs, 0) == 0
  {
    if cs != [] {
      CountBelowAll0(cs[1..]);
    }
  }

  /**
   * An opacity array has exactly 36 zero entries, one per contour index,
   * exactly when it is long enough to reach the largest contour index.
   */
  lemma ContourZeroCount(n: nat)
    ensures CountZeros(AlphaArray(n)) == 36 <==> n > MaxContourIdx
  {
    ZerosAreContourSlots(n);
    ContourBounds();
    if n > MaxContourIdx {
      CountBelowAll(FaceContourIdx, n);
    } else {
      CountBelowMissing(FaceContourIdx, n, 8);
    }
  }

  // ---------------------------------------------------------------------
  // Vertex shader and projection matrix
  // ---------------------------------------------------------------------

  datatype Vec4 = Vec4(x: real, y: real, z: real, w: real)

  /** The landmark-space point that the vertex shader sends to clip point `p`. */
  function LandmarkOfClip(p: Vec4): Vec4
  {
    Vec4((p.x + 1.0) / 2.0, (1.0 - p.y) / 2.0, p.z, p.w)
  }

  /**
   * `gl_Position` of the swap vertex shader for attribute `a_Vertex`:
   * normalised landmark coordinates in [0,1] go to clip space [-1,1] with
   * the y axis flipped; z and w pass through.
   */
  function ShaderPosition(a: Vec4): (p: Vec4)
    ensures LandmarkOfClip(p) == a
    ensures 0.0 <= a.x <= 1.0 && 0.0 <= a.y <= 1.0 ==> -1.0 <= p.x <= 1.0 && -1.0 <= p.y <= 1.0
    ensures p.z == a.z && p.w == a.w
  {
    Vec4(2.0 * a.x - 1.0, 1.0 - 2.0 * a.y, a.z, a.w)
  }

  /** The landmark origin lands on the top-left clip corner, (1,1) on the bottom-right one. */
  lemma ShaderCorners(z: real, w: real)
    ensures ShaderPosition(Vec4(0.0, 0.0, z, w)) == Vec4(-1.0, 1.0, z, w)
    ensures ShaderPosition(Vec4(1.0, 1.0, z, w)) == Vec4(1.0, -1.0, z, w)
    ensures ShaderPosition(Vec4(1.0, 0.0, z, w)) == Vec4(1.0, 1.0, z, w)
    ensures ShaderPosition(Vec4(0.0, 1.0, z, w)) == Vec4(-1.0, -1.0, z, w)
  {
  }

  /** The shader flips y: a landmark lower in the image lands lower in clip space. */
  lemma ShaderFlipsY(a: Vec4, b: Vec4)
    ensures a.y < b.y <==> ShaderPosition(a).y > ShaderPosition(b).y
    ensures a.x < b.x <==> ShaderPosition(a).x < ShaderPosition(b).x
  {
  }

  /** The initial value of `matPrj` (column-major): zeros but for the translation column (-1, 1, 0, 1). */
  const InitialMatPrj: seq<Float> := [
    Finite(0.0), Finite(0.0), Finite(0.0), Finite(0.0),
    Finite(0.0), Finite(0.0), Finite(0.0), Finite(0.0),
    Finite(0.0), Finite(0.0), Finite(0.0), Finite(0.0),
    Finite(-1.0), Finite(1.0), Finite(0.0), Finite(1.0)
  ]

  predicate AllFinite(m: seq<Float>)
  {
    forall i :: 0 <= i < |m| ==> m[i].Finite?
  }

  function Values(m: seq<Float>): (r: seq<real>)
    requires AllFinite(m)
    ensures |r| == |m|
  {
    seq(|m|, i requires 0 <= i < |m| => m[i].value)
  }

  /**
   * The value `matPrj` has before each draw for the given output size:
   * the initial matrix with the x scale `2/width` and the y scale
   * `-2/height` written in.
   */
  function ProjectionMatrix(width: int, height: int): (m: seq<Float>)
    ensures |m| == 16
    ensures AllFinite(m) <==> width != 0 && height != 0
  {
    var m := InitialMatPrj[0 := Divide(2.0, width)][5 := Divide(-2.0, height)];
    assert forall i :: 0 <= i < 16 && i != 0 && i != 5 ==> m[i] == InitialMatPrj[i];
    assert forall i :: 0 <= i < 16 ==> InitialMatPrj[i].Finite?;
    assert m[0] == Divide(2.0, width) && m[5] == Divide(-2.0, height);
    m
  }

  /** A 4x4 column-major matrix applied to a vector, as OpenGL does. */
  function Transform(m: seq<real>, v: Vec4): Vec4
    requires |m| == 16
  {
    Vec4(m[0] * v.x + m[4] * v.y + m[8] * v.z + m[12] * v.w,
         m[1] * v.x + m[5] * v.y + m[9] * v.z + m[13] * v.w,
         m[2] * v.x + m[6] * v.y + m[10] * v.z + m[14] * v.w,
         m[3] * v.x + m[7] * v.y + m[11] * v.z + m[15] * v.w)
  }

  /** For a non-empty output, the projection sends pixel (x, y) to (2x/W - 1, 1 - 2y/H). */
  lemma ProjectionMapsPixels(width: int, height: int, x: real, y: real)
    requires width > 0 && height > 0
    ensures AllFinite(ProjectionMatrix(width, height))
    ensures Transform(Values(ProjectionMatrix(width, height)), Vec4(x, y, 0.0, 1.0))
         == Vec4(2.0 * x / width as real - 1.0, 1.0 - 2.0 * y / height as real, 0.0, 1.0)
  {
    var m := Values(ProjectionMatrix(width, height));
    assert m[0] == 2.0 / width as real && m[5] == -2.0 / height as real;
    assert m[12] == -1.0 && m[13] == 1.0 && m[14] == 0.0 && m[15] == 1.0;
    assert m[1] == 0.0 && m[2] == 0.0 && m[3] == 0.0 && m[4] == 0.0;
    assert m[6] == 0.0 && m[7] == 0.0 && m[8] == 0.0 && m[9] == 0.0 && m[10] == 0.0 && m[11] == 0.0;
    assert (2.0 / width as real) * x == 2.0 * x / width as real;
    assert (-2.0 / height as real) * y == -(2.0 * y / height as real);
  }

  /** The four pixel corners of a W x H output map to the four clip-space corners. */
  lemma ProjectionCorners(width: int, height: int)
    requires width > 0 && height > 0
    ensures var m := Values(ProjectionMatrix(width, height));
      && Transform(m, Vec4(0.0, 0.0, 0.0, 1.0)) == Vec4(-1.0, 1.0, 0.0, 1.0)
      && Transform(m, Vec4(width as real, 0.0, 0.0, 1.0)) == Vec4(1.0, 1.0, 0.0, 1.0)
      && Transform(m, Vec4(0.0, height as real, 0.0, 1.0)) == Vec4(-1.0, -1.0, 0.0, 1.0)
      && Transform(m, Vec4(width as real, height as real, 0.0, 1.0)) == Vec4(1.0, -1.0, 0.0, 1.0)
  {
    ProjectionMapsPixels(width, height, 0.0, 0.0);
    ProjectionMapsPixels(width, height, width as real, 0.0);
    ProjectionMapsPixels(width, height, 0.0, height as real);
    ProjectionMapsPixels(width, height, width as real, height as real);
  }

  /**
   * The projection in pixel space and the shader's map in normalised space
   * agree: scaling a landmark by the output size and projecting it gives the
   * clip position the shader computes from the landmark itself.
   */
  lemma ProjectionAgreesWithShader(width: int, height: int, x: real, y: real)
    requires width > 0 && height > 0
    ensures AllFinite(ProjectionMatrix(width, height))
    ensures Transform(Values(ProjectionMatrix(width, height)), Vec4(x * width as real, y * height as real, 0.0, 1.0))
         == ShaderPosition(Vec4(x, y, 0.0, 1.0))
  {
    ProjectionMapsPixels(width, height, x * width as real, y * height as real);
    assert 2.0 * (x * width as real) / width as real == 2.0 * x;
    assert 2.0 * (y * height as real) / height as real == 2.0 * y;
  }

  // ---------------------------------------------------------------------
  // Mask-texture uploads
  // ---------------------------------------------------------------------

  /** The texture bookkeeping an upload runnable can change. */
  datatype TextureState = TextureState(maskTexture: int, nextName: int, calls: seq<GlCall>)

  /**
   * Running the queued upload runnables of `setBitmap` in order. Each one
   * uploads its bitmap under a fresh texture name, but only while the mask
   * texture is still `NO_TEXTURE` and only if the bitmap is not recycled.
   */
  function RunUploads(s: TextureState, uploads: seq<Bitmap>): TextureState
    reads uploads
    decreases |uploads|
  {
    if uploads == [] then s
    else
      var b := uploads[0];
      var next := if s.maskTexture == NoTexture && !b.isRecycled
                  then TextureState(s.nextName, s.nextName + 1, s.calls + [UploadTexture(s.nextName, b.width, b.height)])
                  else s;
      RunUploads(next, uploads[1..])
  }

  /** The position of the first bitmap in `uploads` that is not recycled. */
  function FirstLive(uploads: seq<Bitmap>): (r: Option<nat>)
    reads uploads
    decreases |uploads|
    ensures r.Some? ==> r.value < |uploads| && !uploads[r.value].isRecycled
    ensures r.Some? ==> forall j :: 0 <= j < r.value ==> uploads[j].isRecycled
    ensures r.None? ==> forall j :: 0 <= j < |uploads| ==> uploads[j].isRecycled
  {
    if uploads == [] then None
    else if !uploads[0].isRecycled then Some(0)
    else match FirstLive(uploads[1..])
      case None => None
      case Some(k) => Some(k + 1)
  }

  /** Once a mask texture is loaded, further upload runnables change nothing. */
  lemma {:induction false} UploadsIdleOnceLoaded(s: TextureState, uploads: seq<Bitmap>)
    requires s.maskTexture != NoTexture
    ensures RunUploads(s, uploads) == s
    decreases |uploads|
  {
    if uploads != [] {
      UploadsIdleOnceLoaded(s, uploads[1..]);
    }
  }

  /**
   * From `NO_TEXTURE`, a batch of upload runnables loads at most one texture:
   * the first bitmap that is not recycled, under the next fresh name; if every
   * bitmap is recycled nothing happens.
   */
  lemma {:induction false} UploadsLoadAtMostOnce(s: TextureState, uploads: seq<Bitmap>)
    requires s.maskTexture == NoTexture && s.nextName > 0
    ensures RunUploads(s, uploads) == match FirstLive(uploads)
      case None => s
      case Some(k) => TextureState(s.nextName, s.nextName + 1,
                                   s.calls + [UploadTexture(s.nextName, uploads[k].width, uploads[k].height)])
    decreases |uploads|
  {
    if uploads != [] {
      if !uploads[0].isRecycled {
        var b := uploads[0];
        UploadsIdleOnceLoaded(TextureState(s.nextName, s.nextName + 1, s.calls + [UploadTexture(s.nextName, b.width, b.height)]), uploads[1..]);
      } else {
        UploadsLoadAtMostOnce(s, uploads[1..]);
        assert uploads[1..][..] == uploads[1..];
        match FirstLive(uploads[1..])
        case None =>
        case Some(k) => assert uploads[1..][k] == uploads[k + 1];
      }
    }
  }

  /** Upload runnables never issue a draw call. */
  lemma {:induction false} UploadsDrawNothing(s: TextureState, uploads: seq<Bitmap>)
    ensures DrawCount(RunUploads(s, uploads).calls) == DrawCount(s.calls)
    decreases |uploads|
  {
    if uploads != [] {
      var b := uploads[0];
      var next := if s.maskTexture == NoTexture && !b.isRecycled
                  then TextureState(s.nextName, s.nextName + 1, s.calls + [UploadTexture(s.nextName, b.width, b.height)])
                  else s;
      assert RunUploads(s, uploads) == RunUploads(next, uploads[1..]);
      DrawCountPush(s.calls, UploadTexture(s.nextName, b.width, b.height));
      assert DrawCount(next.calls) == DrawCount(s.calls);
      UploadsDrawNothing(next, uploads[1..]);
    }
  }

  // ---------------------------------------------------------------------
  // The filter object
  // ---------------------------------------------------------------------

  /**
   * A SwapFilter: the packed origin-face positions `vtx`, the mask-face
   * texture coordinates `uv` and the mask colour, drawn as indexed triangles
   * over `faceTris` (the face-mesh triangle table). `pendingUploads` is the
   * filter's run-on-draw queue, whose runnables are the mask uploads queued
   * by `SetBitmap`; `nextTextureName` stands for the GL driver's supply of
   * fresh texture names; `glCalls` logs the GL calls issued.
   */
  class SwapFilter {
    const vtx: seq<real>
    const uv: seq<real>
    const color: seq<real>
    const faceTris: seq<Short>
    const matPrj: array<Float>

    var maskTexture: int
    var bitmap: Bitmap?
    var pendingUploads: seq<Bitmap>
    var isInitialized: bool
    var outputWidth: int
    var outputHeight: int
    var vboAlpha: Option<seq<real>>
    var nextTextureName: int
    var glCalls: seq<GlCall>

    /**
     * Every entry of `matPrj` but the two scales keeps its initial value, and
     * a loaded mask texture carries a name the driver has handed out.
     */
    ghost predicate Valid()
      reads this, matPrj
    {
      && matPrj.Length == 16
      && (forall i :: 0 <= i < 16 && i != 0 && i != 5 ==> matPrj[i] == InitialMatPrj[i])
      && nextTextureName > 0
      && (maskTexture == NoTexture || 0 < maskTexture < nextTextureName)
    }

    function Textures(): TextureState
      reads this
    {
      TextureState(maskTexture, nextTextureName, glCalls)
    }

    /** The fields the texture bookkeeping and the queue leave alone. */
    function DrawSetup(): (bool, int, int, Option<seq<real>>)
      reads this
    {
      (isInitialized, outputWidth, outputHeight, vboAlpha)
    }

    constructor (vtx: seq<real>, uv: seq<real>, color: seq<real>, faceTris: seq<Short>)
      ensures Valid() && fresh(matPrj)
      ensures this.vtx == vtx && this.uv == uv && this.color == color && this.faceTris == faceTris
      ensures matPrj[..] == InitialMatPrj
      ensures maskTexture == NoTexture && bitmap == null && pendingUploads == []
      ensures DrawSetup() == (false, 0, 0, None) && glCalls == []
    {
      this.vtx := vtx;
      this.uv := uv;
      this.color := color;
      this.faceTris := faceTris;
      matPrj := new Float[16](i requires 0 <= i < 16 => InitialMatPrj[i]);
      maskTexture := NoTexture;
      bitmap := null;
      pendingUploads := [];
      isInitialized := false;
      outputWidth, outputHeight := 0, 0;
      vboAlpha := None;
      nextTextureName := 1;
      glCalls := [];
      new;
      assert matPrj[..] == InitialMatPrj;
    }

    /** `onOutputSizeChanged` (inherited): records the output surface size. */
    method OnOutputSizeChanged(width: int, height: int)
      requires Valid()
      modifies this
      ensures Valid()
      ensures outputWidth == width && outputHeight == height
      ensures isInitialized == old(isInitialized) && vboAlpha == old(vboAlpha)
      ensures Textures() == old(Textures()) && bitmap == old(bitmap) && pendingUploads == old(pendingUploads)
    {
      outputWidth, outputHeight := width, height;
    }

    /**
     * `setBitmap`: a recycled bitmap is ignored altogether; `null` is stored
     * and queues nothing; any other bitmap is stored and its upload queued.
     */
    method SetBitmap(b: Bitmap?)
      requires Valid()
      modifies this
      ensures Valid()
      ensures b != null && b.isRecycled ==> bitmap == old(bitmap) && pendingUploads == old(pendingUploads)
      ensures b == null ==> bitmap == null && pendingUploads == old(pendingUploads)
      ensures b != null && !b.isRecycled ==> bitmap == b && pendingUploads == old(pendingUploads) + [b]
      ensures Textures() == old(Textures()) && DrawSetup() == old(DrawSetup())
    {
      if b != null && b.isRecycled {
        return;
      }
      bitmap := b;
      if bitmap == null {
        return;
      }
      pendingUploads := pendingUploads + [b];
    }

    /** `getBitmap`. */
    method GetBitmap() returns (b: Bitmap?)
      ensures b == bitmap
    {
      b := bitmap;
    }

    /** `onInitialized`: re-queues the upload of a stored bitmap that is still live. */
    method OnInitialized()
      requires Valid()
      modifies this
      ensures Valid()
      ensures old(bitmap) != null && !old(bitmap.isRecycled) ==> pendingUploads == old(pendingUploads) + [old(bitmap)]
      ensures old(bitmap) == null || old(bitmap.isRecycled) ==> pendingUploads == old(pendingUploads)
      ensures bitmap == old(bitmap) && Textures() == old(Textures()) && DrawSetup() == old(DrawSetup())
    {
      if bitmap != null && !bitmap.isRecycled {
        SetBitmap(bitmap);
      }
    }

    /**
     * `ifNeedInit` of the base filter: the first call marks the filter
     * initialised (the shader program and attribute lookups of `onInit`) and
     * runs `onInitialized`; later calls do nothing.
     */
    method IfNeedInit()
      requires Valid()
      modifies this
      ensures Valid() && isInitialized
      ensures old(isInitialized) ==> pendingUploads == old(pendingUploads)
      ensures !old(isInitialized) && old(bitmap) != null && !old(bitmap.isRecycled) ==> pendingUploads == old(pendingUploads) + [old(bitmap)]
      ensures !old(isInitialized) && (old(bitmap) == null || old(bitmap.isRecycled)) ==> pendingUploads == old(pendingUploads)
      ensures bitmap == old(bitmap) && Textures() == old(Textures())
      ensures outputWidth == old(outputWidth) && outputHeight == old(outputHeight) && vboAlpha == old(vboAlpha)
    {
      if !isInitialized {
        isInitialized := true;
        OnInitialized();
      }
    }

    /** `recycleBitmap`: recycles a live stored bitmap and forgets it; otherwise nothing. */
    method RecycleBitmap()
      requires Valid()
      modifies this, bitmap
      ensures Valid()
      ensures old(bitmap) != null && !old(bitmap.isRecycled) ==> old(bitmap).isRecycled && bitmap == null
      ensures old(bitmap) == null || old(bitmap.isRecycled) ==> bitmap == old(bitmap)
      ensures old(bitmap) != null ==> old(bitmap).isRecycled
      ensures pendingUploads == old(pendingUploads) && Textures() == old(Textures()) && DrawSetup() == old(DrawSetup())
    {
      if bitmap != null && !bitmap.isRecycled {
        bitmap.Recycle();
        bitmap := null;
      }
    }

    /** `onDestroy`: deletes the mask texture and resets it to `NO_TEXTURE`. */
    method OnDestroy()
      requires Valid()
      modifies this
      ensures Valid()
      ensures maskTexture == NoTexture && nextTextureName == old(nextTextureName)
      ensures glCalls == old(glCalls) + [DeleteTexture(old(maskTexture))]
      ensures bitmap == old(bitmap) && pendingUploads == old(pendingUploads) && DrawSetup() == old(DrawSetup())
    {
      glCalls := glCalls + [DeleteTexture(maskTexture)];
      maskTexture := NoTexture;
    }

    /** `runPendingOnDrawTasks` (inherited): drains the queue of upload runnables in order. */
    method RunPendingOnDrawTasks()
      requires Valid()
      modifies this
      ensures Valid()
      ensures pendingUploads == []
      ensures Textures() == RunUploads(old(Textures()), old(pendingUploads))
      ensures bitmap == old(bitmap) && DrawSetup() == old(DrawSetup())
    {
      while pendingUploads != []
        invariant Valid()
        invariant RunUploads(Textures(), pendingUploads) == RunUploads(old(Textures()), old(pendingUploads))
        invariant bitmap == old(bitmap) && DrawSetup() == old(DrawSetup())
        decreases |pendingUploads|
      {
        var b := pendingUploads[0];
        pendingUploads := pendingUploads[1..];
        if maskTexture == NoTexture {
          if !b.isRecycled {
            maskTexture := nextTextureName;
            nextTextureName := nextTextureName + 1;
            glCalls := glCalls + [UploadTexture(maskTexture, b.width, b.height)];
          }
        }
      }
    }

    /** Writes the two scale entries of `matPrj` for the current output size. */
    method UpdateProjection()
      requires Valid()
      modifies matPrj
      ensures Valid()
      ensures matPrj[..] == ProjectionMatrix(outputWidth, outputHeight)
    {
      matPrj[0] := Divide(2.0, outputWidth);
      matPrj[5] := Divide(-2.0, outputHeight);
      assert matPrj[..] == ProjectionMatrix(outputWidth, outputHeight);
    }

    /**
     * `onDraw`, the draw the renderer calls: runs the pending uploads, and
     * if the filter is initialised rewrites the projection and issues one
     * indexed draw of all `faceTris` indices over the incoming `textureId`.
     * Neither the opacity array nor the mask texture is used.
     */
    method OnDraw(textureId: int)
      requires Valid()
      modifies this, matPrj
      ensures Valid()
      ensures pendingUploads == [] && bitmap == old(bitmap) && DrawSetup() == old(DrawSetup())
      ensures var t := RunUploads(TextureState(old(maskTexture), old(nextTextureName), old(glCalls) + [UseProgram]),
                                  old(pendingUploads));
        && maskTexture == t.maskTexture && nextTextureName == t.nextName
        && (!isInitialized ==> matPrj[..] == old(matPrj[..]) && glCalls == t.calls)
        && (isInitialized ==> matPrj[..] == ProjectionMatrix(outputWidth, outputHeight)
                              && glCalls == t.calls + [BindTexture(textureId), Clear, DrawElements(|faceTris|)])
      ensures DrawCount(glCalls) == DrawCount(old(glCalls)) + (if isInitialized then 1 else 0)
    {
      ghost var start := TextureState(maskTexture, nextTextureName, glCalls + [UseProgram]);
      ghost var uploads := pendingUploads;
      glCalls := glCalls + [UseProgram];
      RunPendingOnDrawTasks();
      ghost var t := Textures();
      assert t == RunUploads(start, uploads);
      UploadsDrawNothing(start, uploads);
      DrawCountPush(old(glCalls), UseProgram);
      assert DrawCount(t.calls) == DrawCount(old(glCalls));
      if !isInitialized {
        return;
      }
      UpdateProjection();
      DrawFaceTris(textureId);
    }

    /** The draw half of `onDraw`: binds `textureId`, clears and draws all `faceTris` indices once. */
    method DrawFaceTris(textureId: int)
      requires Valid()
      modifies this
      ensures Valid()
      ensures glCalls == old(glCalls) + [BindTexture(textureId), Clear, DrawElements(|faceTris|)]
      ensures DrawCount(glCalls) == DrawCount(old(glCalls)) + 1
      ensures maskTexture == old(maskTexture) && nextTextureName == old(nextTextureName)
      ensures pendingUploads == old(pendingUploads) && bitmap == old(bitmap) && DrawSetup() == old(DrawSetup())
    {
      var drawIndex := faceTris;
      DrawCountPush(glCalls, BindTexture(textureId));
      DrawCountPush(glCalls + [BindTexture(textureId)], Clear);
      DrawCountPush(glCalls + [BindTexture(textureId)] + [Clear], DrawElements(|drawIndex|));
      assert glCalls + [BindTexture(textureId)] + [Clear] + [DrawElements(|drawIndex|)]
          == glCalls + [BindTexture(textureId), Clear, DrawElements(|drawIndex|)];
      glCalls := glCalls + [BindTexture(textureId), Clear, DrawElements(|drawIndex|)];
    }

    /**
     * `onDrawFace`, the variant no shown caller uses: like `OnDraw`, but it
     * also builds the opacity array over `faceTris` and draws with blending
     * from the mask texture; `textureId` is only logged.
     */
    method OnDrawFace(textureId: int)
      requires Valid()
      modifies this, matPrj
      ensures Valid()
      ensures pendingUploads == [] && bitmap == old(bitmap)
      ensures isInitialized == old(isInitialized) && outputWidth == old(outputWidth) && outputHeight == old(outputHeight)
      ensures var t := RunUploads(TextureState(old(maskTexture), old(nextTextureName), old(glCalls) + [UseProgram]),
                                  old(pendingUploads));
        && maskTexture == t.maskTexture && nextTextureName == t.nextName
        && (!isInitialized ==> matPrj[..] == old(matPrj[..]) && glCalls == t.calls && vboAlpha == old(vboAlpha))
        && (isInitialized ==> matPrj[..] == ProjectionMatrix(outputWidth, outputHeight)
                              && vboAlpha == Some(AlphaArray(|faceTris|))
                              && glCalls == t.calls + [UseProgram, EnableBlend, BindTexture(t.maskTexture),
                                                       DrawElements(|faceTris|), DisableBlend])
    {
      glCalls := glCalls + [UseProgram];
      RunPendingOnDrawTasks();
      if !isInitialized {
        return;
      }
      UpdateProjection();
      var alpha := CreateVboAlphaArray(faceTris);
      vboAlpha := Some(alpha);
      glCalls := glCalls + [UseProgram, EnableBlend, BindTexture(maskTexture), DrawElements(|faceTris|), DisableBlend];
    }
  }
}
