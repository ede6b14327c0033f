/**
 * The face-swap activity's `makeFaceSwapFilter`: once both face-mesh results
 * are in, the first origin face's landmarks become the vertex positions and
 * the first mask face's landmarks become the texture coordinates of a new
 * SwapFilter, tinted with an opaque white mask colour.
 */
module FaceSwapActivity {
  import opened Wrappers
  import FaceSwap

  /** A face-mesh landmark: x and y normalised to the image, z a relative depth. */
  datatype Landmark = Landmark(x: real, y: real, z: real)

  /** A face-mesh result: the landmark list of every detected face. */
  datatype FaceMeshResult = FaceMeshResult(multiFaceLandmarks: seq<seq<Landmark>>)

  /** The exceptions `makeFaceSwapFilter` can raise. */
  datatype Exception = NullPointerException | IndexOutOfBoundsException

  /** The arguments of the `SwapFilter(vtx, uv, color)` constructor. */
  datatype FilterArgs = FilterArgs(vtx: seq<real>, uv: seq<real>, color: seq<real>)

  /** The mask colour passed to every filter: opaque white. */
  const MaskColor: seq<real> := [1.0, 1.0, 1.0, 1.0]

  // ---------------------------------------------------------------------
  // Packing specification and its inverse
  // ---------------------------------------------------------------------

  /** Three floats per landmark: x, y, z. */
  function Positions(ps: seq<Landmark>): seq<real>
  {
    if ps == [] then [] else [ps[0].x, ps[0].y, ps[0].z] + Positions(ps[1..])
  }

  /** Two floats per landmark: x, y; z is dropped. */
  function TexCoords(qs: seq<Landmark>): seq<real>
  {
    if qs == [] then [] else [qs[0].x, qs[0].y] + TexCoords(qs[1..])
  }

  /** Reads a packed position array back into landmarks. */
  function UnpackPositions(vtx: seq<real>): seq<Landmark>
    requires |vtx| % 3 == 0
  {
    if vtx == [] then [] else [Landmark(vtx[0], vtx[1], vtx[2])] + UnpackPositions(vtx[3..])
  }

  /** The (x, y) part of each landmark. */
  function Planar(qs: seq<Landmark>): seq<(real, real)>
  {
    if qs == [] then [] else [(qs[0].x, qs[0].y)] + Planar(qs[1..])
  }

  /** Reads a packed texture-coordinate array back into (u, v) pairs. */
  function UnpackTexCoords(uv: seq<real>): seq<(real, real)>
    requires |uv| % 2 == 0
  {
    if uv == [] then [] else [(uv[0], uv[1])] + UnpackTexCoords(uv[2..])
  }

  lemma {:induction false} PositionsLength(ps: seq<Landmark>)
    ensures |Positions(ps)| == 3 * |ps|
  {
    if ps != [] {
      PositionsLength(ps[1..]);
    }
  }

  lemma {:induction false} TexCoordsLength(qs: seq<Landmark>)
    ensures |TexCoords(qs)| == 2 * |qs|
  {
    if qs != [] {
      TexCoordsLength(qs[1..]);
    }
  }

  /** Slots 3i, 3i+1, 3i+2 of the packed positions hold landmark i's x, y, z. */
  lemma {:induction false} PositionsAt(ps: seq<Landmark>, i: nat)
    requires i < |ps|
    ensures |Positions(ps)| == 3 * |ps|
    ensures Positions(ps)[3 * i] == ps[i].x
    ensures Positions(ps)[3 * i + 1] == ps[i].y
    ensures Positions(ps)[3 * i + 2] == ps[i].z
  {
    PositionsLength(ps);
    if i > 0 {
      PositionsAt(ps[1..], i - 1);
    }
  }

  /** Slots 2i, 2i+1 of the packed texture coordinates hold landmark i's x, y. */
  lemma {:induction false} TexCoordsAt(qs: seq<Landmark>, i: nat)
    requires i < |qs|
    ensures |TexCoords(qs)| == 2 * |qs|
    ensures TexCoords(qs)[2 * i] == qs[i].x
    ensures TexCoords(qs)[2 * i + 1] == qs[i].y
  {
    TexCoordsLength(qs);
    if i > 0 {
      TexCoordsAt(qs[1..], i - 1);
    }
  }

  /** An array with the slot values of `Positions(ps)` is `Positions(ps)`. */
  lemma {:induction false} PositionsFromSlots(ps: seq<Landmark>, vtx: seq<real>)
    requires |vtx| == 3 * |ps|
    requires forall k :: 0 <= k < |ps| ==>
      vtx[3 * k] == ps[k].x && vtx[3 * k + 1] == ps[k].y && vtx[3 * k + 2] == ps[k].z
    ensures vtx == Positions(ps)
  {
    if ps != [] {
      forall k | 0 <= k < |ps[1..]|
        ensures vtx[3..][3 * k] == ps[1..][k].x && vtx[3..][3 * k + 1] == ps[1..][k].y
        ensures vtx[3..][3 * k + 2] == ps[1..][k].z
      {
        assert vtx[3 * (k + 1)] == ps[k + 1].x;
        assert vtx[3 * (k + 1) + 1] == ps[k + 1].y;
        assert vtx[3 * (k + 1) + 2] == ps[k + 1].z;
      }
      PositionsFromSlots(ps[1..], vtx[3..]);
      assert vtx[0] == ps[0].x && vtx[1] == ps[0].y && vtx[2] == ps[0].z;
      assert vtx == [vtx[0], vtx[1], vtx[2]] + vtx[3..];
    }
  }

  /** An array with the slot values of `TexCoords(qs)` is `TexCoords(qs)`. */
  lemma {:induction false} TexCoordsFromSlots(qs: seq<Landmark>, uv: seq<real>)
    requires |uv| == 2 * |qs|
    requires forall k :: 0 <= k < |qs| ==> uv[2 * k] == qs[k].x && uv[2 * k + 1] == qs[k].y
    ensures uv == TexCoords(qs)
  {
    if qs != [] {
      forall k | 0 <= k < |qs[1..]|
        ensures uv[2..][2 * k] == qs[1..][k].x && uv[2..][2 * k + 1] == qs[1..][k].y
      {
        assert uv[2 * (k + 1)] == qs[k + 1].x;
        assert uv[2 * (k + 1) + 1] == qs[k + 1].y;
      }
      TexCoordsFromSlots(qs[1..], uv[2..]);
      assert uv[0] == qs[0].x && uv[1] == qs[0].y;
      assert uv == [uv[0], uv[1]] + uv[2..];
    }
  }

  /** Packing positions loses nothing: unpacking gives the landmarks back. */
  lemma {:induction false} PositionsRoundTrip(ps: seq<Landmark>)
    ensures |Positions(ps)| % 3 == 0
    ensures UnpackPositions(Positions(ps)) == ps
  {
    PositionsLength(ps);
    if ps != [] {
      PositionsRoundTrip(ps[1..]);
      var v := Positions(ps);
      assert v[3..] == Positions(ps[1..]);
      assert [ps[0]] + ps[1..] == ps;
    }
  }

  /** Packing texture coordinates keeps exactly the (x, y) of each landmark. */
  lemma {:induction false} TexCoordsRoundTrip(qs: seq<Landmark>)
    ensures |TexCoords(qs)| % 2 == 0
    ensures UnpackTexCoords(TexCoords(qs)) == Planar(qs)
  {
    TexCoordsLength(qs);
    if qs != [] {
      TexCoordsRoundTrip(qs[1..]);
      var v := TexCoords(qs);
      assert v[2..] == TexCoords(qs[1..]);
    }
  }

  /**
   * Vertex `i` of a packed position array as the shader's `a_Vertex`
   * attribute: three components are supplied and GL sets w to 1.
   */
  function VertexAttribute(vtx: seq<real>, i: nat): FaceSwap.Vec4
    requires 3 * i + 2 < |vtx|
  {
    FaceSwap.Vec4(vtx[3 * i], vtx[3 * i + 1], vtx[3 * i + 2], 1.0)
  }

  /**
   * The clip position the shader gives mesh vertex `i` is the image of origin
   * landmark `i` and of nothing else.
   */
  lemma VertexFollowsOriginLandmark(ps: seq<Landmark>, i: nat)
    requires i < |ps|
    ensures 3 * i + 2 < |Positions(ps)|
    ensures var p := ps[i];
      FaceSwap.LandmarkOfClip(FaceSwap.ShaderPosition(VertexAttribute(Positions(ps), i)))
        == FaceSwap.Vec4(p.x, p.y, p.z, 1.0)
  {
    PositionsAt(ps, i);
  }

  // ---------------------------------------------------------------------
  // The packing loop and makeFaceSwapFilter
  // ---------------------------------------------------------------------

  /**
   * The loop of `makeFaceSwapFilter` over the origin keypoints: it writes
   * `face_vtx[3i..3i+2]` from origin landmark i and `face_uv[2i..2i+1]` from
   * mask landmark i, so a mask list shorter than the origin list raises an
   * index error; a longer one has its tail ignored.
   */
  method PackLandmarks(keypoints: seq<Landmark>, maskKeypoints: seq<Landmark>)
    returns (r: Result<(seq<real>, seq<real>), Exception>)
    ensures r.Failure? <==> |maskKeypoints| < |keypoints|
    ensures r.Failure? ==> r.error == IndexOutOfBoundsException
    ensures r.Success? ==> |r.value.0| == 3 * |keypoints| && |r.value.1| == 2 * |keypoints|
    ensures r.Success? ==> forall i :: 0 <= i < |keypoints| ==>
      r.value.0[3 * i] == keypoints[i].x && r.value.0[3 * i + 1] == keypoints[i].y && r.value.0[3 * i + 2] == keypoints[i].z
    ensures r.Success? ==> forall i :: 0 <= i < |keypoints| ==>
      r.value.1[2 * i] == maskKeypoints[i].x && r.value.1[2 * i + 1] == maskKeypoints[i].y
    ensures r.Success? ==> r.value.0 == Positions(keypoints) && r.value.1 == TexCoords(maskKeypoints[..|keypoints|])
  {
    var n := |keypoints|;
    var faceVtx := new real[n * 3];
    var faceUv := new real[n * 2];
    for i := 0 to n
      invariant i <= |maskKeypoints|
      invariant forall k :: 0 <= k < i ==>
        faceVtx[3 * k] == keypoints[k].x && faceVtx[3 * k + 1] == keypoints[k].y && faceVtx[3 * k + 2] == keypoints[k].z
      invariant forall k :: 0 <= k < i ==> faceUv[2 * k] == maskKeypoints[k].x && faceUv[2 * k + 1] == maskKeypoints[k].y
    {
      var p := keypoints[i];
      faceVtx[3 * i + 0] := p.x;
      faceVtx[3 * i + 1] := p.y;
      faceVtx[3 * i + 2] := p.z;
      if i >= |maskKeypoints| {
        return Failure(IndexOutOfBoundsException);
      }
      var q := maskKeypoints[i];
      faceUv[2 * i + 0] := q.x;
      faceUv[2 * i + 1] := q.y;
    }
    PositionsFromSlots(keypoints, faceVtx[..]);
    TexCoordsFromSlots(maskKeypoints[..n], faceUv[..]);
    r := Success((faceVtx[..], faceUv[..]));
  }

  /**
   * `makeFaceSwapFilter`: uses face [0] of each result. A missing result is a
   * null dereference and an origin result without faces an index error; a
   * mask result without faces builds no filter; otherwise the packed arrays
   * and the white mask colour make up the filter.
   */
  method MakeFaceSwapFilter(originFace: Option<FaceMeshResult>, maskFace: Option<FaceMeshResult>)
    returns (r: Result<Option<FilterArgs>, Exception>)
    ensures originFace.None? ==> r == Failure(NullPointerException)
    ensures originFace.Some? && originFace.value.multiFaceLandmarks == [] ==> r == Failure(IndexOutOfBoundsException)
    ensures originFace.Some? && originFace.value.multiFaceLandmarks != [] && maskFace.None? ==>
      r == Failure(NullPointerException)
    ensures originFace.Some? && originFace.value.multiFaceLandmarks != [] && maskFace.Some? ==>
      var o := originFace.value.multiFaceLandmarks[0];
      var faces := maskFace.value.multiFaceLandmarks;
      && (faces == [] ==> r == Success(None))
      && (faces != [] && |faces[0]| < |o| ==> r == Failure(IndexOutOfBoundsException))
      && (faces != [] && |faces[0]| >= |o| ==>
            r == Success(Some(FilterArgs(Positions(o), TexCoords(faces[0][..|o|]), MaskColor))))
    ensures r.Success? && r.value.Some? ==>
      maskFace.Some? && maskFace.value.multiFaceLandmarks != [] && r.value.value.color == MaskColor
  {
    var maskColor := MaskColor;
    if originFace.None? {
      return Failure(NullPointerException);
    }
    if originFace.value.multiFaceLandmarks == [] {
      return Failure(IndexOutOfBoundsException);
    }
    var keypoints := originFace.value.multiFaceLandmarks[0];
    if maskFace.None? {
      return Failure(NullPointerException);
    }
    if |maskFace.value.multiFaceLandmarks| > 0 {
      var maskKeypoints := maskFace.value.multiFaceLandmarks[0];
      var packed := PackLandmarks(keypoints, maskKeypoints);
      if packed.Failure? {
        return Failure(packed.error);
      }
      r := Success(Some(FilterArgs(packed.value.0, packed.value.1, maskColor)));
    } else {
      r := Success(None);
    }
  }
}
