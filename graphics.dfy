/**
 * The parts of the Android and OpenGL ES platform that the face-swap code
 * touches, reduced to what its bookkeeping can observe: bitmaps that can be
 * recycled, 32-bit floats that can be non-finite, Java shorts, texture names
 * and the GL calls a draw issues.
 */
module Graphics {
  /** A Java `short`, the element type of the triangle index table. */
  newtype Short = x: int | -0x8000 <= x < 0x8000

  /** `OpenGlUtils.NO_TEXTURE`: the texture name that stands for "nothing uploaded". */
  const NoTexture: int := -1

  /**
   * A float as far as this model needs it: a finite value (held exactly,
   * without rounding to 32 bits) or one of the non-finite values
   * (infinities and NaN, not told apart).
   */
  datatype Float = Finite(value: real) | NonFinite

  /**
   * Kotlin's `(num / den).toFloat()` with a Double numerator and an Int
   * denominator: floating-point division by zero gives an infinity.
   */
  function Divide(num: real, den: int): (r: Float)
    ensures r.Finite? <==> den != 0
    ensures r.Finite? ==> r.value * (den as real) == num
  {
    if den == 0 then NonFinite else Finite(num / den as real)
  }

  /**
   * `android.graphics.Bitmap`: its dimensions never change; `recycle()`
   * frees its pixels, after which `isRecycled` holds.
   */
  class Bitmap {
    const width: nat
    const height: nat
    var isRecycled: bool

    constructor (width: nat, height: nat)
      ensures this.width == width && this.height == height && !isRecycled
    {
      this.width := width;
      this.height := height;
      isRecycled := false;
    }

    method Recycle()
      modifies this
      ensures isRecycled
    {
      isRecycled := true;
    }
  }

  /** The GL calls whose order and arguments the model records. */
  datatype GlCall =
    | UseProgram
    | Clear
    | UploadTexture(name: int, width: nat, height: nat)
    | BindTexture(name: int)
    | DeleteTexture(name: int)
    | EnableBlend
    | DisableBlend
    | DrawElements(count: nat)

  /** The number of `glDrawElements` calls in a call log. */
  function DrawCount(calls: seq<GlCall>): nat
  {
    if calls == [] then 0
    else DrawCount(calls[..|calls| - 1]) + (if calls[|calls| - 1].DrawElements? then 1 else 0)
  }

  lemma DrawCountPush(calls: seq<GlCall>, c: GlCall)
    ensures DrawCount(calls + [c]) == DrawCount(calls) + (if c.DrawElements? then 1 else 0)
  {
    assert (calls + [c])[..|calls|] == calls;
  }

  lemma {:induction false} DrawCountAppend(a: seq<GlCall>, b: seq<GlCall>)
    ensures DrawCount(a + b) == DrawCount(a) + DrawCount(b)
    decreases |b|
  {
    if b == [] {
      assert a + b == a;
    } else {
      assert (a + b)[..|a + b| - 1] == a + b[..|b| - 1];
      DrawCountAppend(a, b[..|b| - 1]);
    }
  }
}
