/** Sample blocks exchanged between nodes: a mono block is a 1-D array of
    samples, a stereo block is an (n, 2) array of frames. Samples are
    idealised as reals. */
module Audio {

  datatype Frame = Frame(left: real, right: real)

  const Silent: Frame := Frame(0.0, 0.0)

  function Plus(a: Frame, b: Frame): Frame {
    Frame(a.left + b.left, a.right + b.right)
  }

  function Scale(a: Frame, k: real): Frame {
    Frame(a.left * k, a.right * k)
  }

  datatype Block = Mono(samples: seq<real>) | Stereo(frames: seq<Frame>) {
    function Length(): nat {
      if Mono? then |samples| else |frames|
    }
  }

  /** Python's `int()` on a float: truncation toward zero. */
  function Trunc(x: real): (r: int)
    ensures x >= 0.0 ==> r as real <= x < r as real + 1.0
    ensures x < 0.0 ==> r as real - 1.0 < x <= r as real
  {
    if x >= 0.0 then x.Floor else -((-x).Floor)
  }

  lemma MulAtLeast(d: int, n: int)
    requires d >= 1 && n >= 1
    ensures d * n >= n
  {
    if d > 1 {
      MulAtLeast(d - 1, n);
      assert d * n == (d - 1) * n + n;
    }
  }

  /** Euclidean division is determined by quotient and remainder. */
  lemma DivModUnique(a: int, n: int, q: int, r: int)
    requires n >= 1 && 0 <= r < n && a == q * n + r
    ensures a % n == r && a / n == q
  {
    var q0, r0 := a / n, a % n;
    assert a == q0 * n + r0;
    var d := q - q0;
    assert d * n == q * n - q0 * n;
    if d >= 1 {
      MulAtLeast(d, n);
    } else if d <= -1 {
      MulAtLeast(-d, n);
    }
  }

  /** The block size used for silence by every effect (`np.zeros((1024, 2))`). */
  const BlockSize: nat := 1024

  function SilentFrames(n: nat): (r: seq<Frame>)
    ensures |r| == n
    ensures forall i :: 0 <= i < n ==> r[i] == Silent
  {
    seq(n, _ => Silent)
  }

  /** What an effect returns when called without input. */
  function SilentBlock(): (r: Block)
    ensures r.Stereo? && |r.frames| == BlockSize
    ensures forall i :: 0 <= i < |r.frames| ==> r.frames[i] == Silent
  {
    Stereo(SilentFrames(BlockSize))
  }
}
