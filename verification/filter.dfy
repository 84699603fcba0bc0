/** `AudioFilterNode` (audiokit/nodes/effects.py): a second-order low-pass
    section applied with `scipy.signal.lfilter`. The Butterworth design
    (`scipy.signal.butter`) is outside the model and enters as its
    coefficients; `lfilter` is modelled as the difference equation it
    computes from a zero initial state. */
module Filter {
  import opened Wrappers
  import opened Audio

  /** Second-order coefficients with the leading denominator term already
      normalised to 1, as the Butterworth design returns them. */
  datatype Coeffs = Coeffs(b0: real, b1: real, b2: real, a1: real, a2: real)

  /** The input sample at `k`, zero before the start and past the end. */
  function At(xs: seq<real>, k: int): real {
    if 0 <= k < |xs| then xs[k] else 0.0
  }

  /** One output of the difference equation from the current and two
      previous inputs and the two previous outputs. */
  function Out(c: Coeffs, x0: real, x1: real, x2: real, y1: real, y2: real): real {
    c.b0 * x0 + c.b1 * x1 + c.b2 * x2 - c.a1 * y1 - c.a2 * y2
  }

  /** The difference equation: output `n` from the last three inputs and the
      last two outputs. */
  function Y(c: Coeffs, xs: seq<real>, n: int): real
    decreases n
  {
    if n < 0 then 0.0
    else Out(c, At(xs, n), At(xs, n - 1), At(xs, n - 2), Y(c, xs, n - 1), Y(c, xs, n - 2))
  }

  /** The filtered signal, one output per input sample. */
  function Response(c: Coeffs, xs: seq<real>): (ys: seq<real>)
    ensures |ys| == |xs|
    ensures forall n :: 0 <= n < |xs| ==> ys[n] == Y(c, xs, n)
  {
    seq(|xs|, n requires 0 <= n < |xs| => Y(c, xs, n))
  }

  /** The two state values of the transposed direct form II, from the
      inputs and outputs they remember. */
  function S1(c: Coeffs, x1: real, x2: real, y1: real, y2: real): real {
    c.b1 * x1 + c.b2 * x2 - c.a1 * y1 - c.a2 * y2
  }

  function S2(c: Coeffs, x1: real, y1: real): real {
    c.b2 * x1 - c.a2 * y1
  }

  /** The state values after `n` samples. */
  function State1(c: Coeffs, xs: seq<real>, n: int): real {
    S1(c, At(xs, n - 1), At(xs, n - 2), Y(c, xs, n - 1), Y(c, xs, n - 2))
  }

  function State2(c: Coeffs, xs: seq<real>, n: int): real {
    S2(c, At(xs, n - 1), Y(c, xs, n - 1))
  }

  /** The output is the current input's term plus the first state value,
      which is the second one plus the newer terms. */
  lemma Regroup(c: Coeffs, x0: real, x1: real, x2: real, y1: real, y2: real)
    ensures Out(c, x0, x1, x2, y1, y2) == c.b0 * x0 + S1(c, x1, x2, y1, y2)
    ensures S1(c, x1, x2, y1, y2) == c.b1 * x1 - c.a1 * y1 + S2(c, x2, y2)
  {
  }

  /** One step of the loop: output and state updates agree with the
      difference equation. */
  lemma StateStep(c: Coeffs, xs: seq<real>, n: int)
    requires 0 <= n < |xs|
    ensures Y(c, xs, n) == c.b0 * xs[n] + State1(c, xs, n)
    ensures State1(c, xs, n + 1) == c.b1 * xs[n] - c.a1 * Y(c, xs, n) + State2(c, xs, n)
    ensures State2(c, xs, n + 1) == c.b2 * xs[n] - c.a2 * Y(c, xs, n)
  {
    OutputStep(c, xs, n);
    FirstStateStep(c, xs, n);
  }

  lemma OutputStep(c: Coeffs, xs: seq<real>, n: int)
    requires 0 <= n < |xs|
    ensures Y(c, xs, n) == c.b0 * xs[n] + State1(c, xs, n)
  {
    var x0, x1, x2 := At(xs, n), At(xs, n - 1), At(xs, n - 2);
    assert x0 == xs[n];
    assert Y(c, xs, n) == Out(c, x0, x1, x2, Y(c, xs, n - 1), Y(c, xs, n - 2));
    Regroup(c, x0, x1, x2, Y(c, xs, n - 1), Y(c, xs, n - 2));
  }

  lemma FirstStateStep(c: Coeffs, xs: seq<real>, n: int)
    requires 0 <= n < |xs|
    ensures State1(c, xs, n + 1) == c.b1 * xs[n] - c.a1 * Y(c, xs, n) + State2(c, xs, n)
  {
    var x0, x1 := At(xs, n), At(xs, n - 1);
    var y0, y1 := Y(c, xs, n), Y(c, xs, n - 1);
    assert x0 == xs[n];
    assert State1(c, xs, n + 1) == S1(c, x0, x1, y0, y1);
    assert State2(c, xs, n) == S2(c, x1, y1);
    Regroup(c, 0.0, x0, x1, y0, y1);
  }

  /** The loop body maps the state after `n` samples to output `n` and
      the state after `n + 1` samples. */
  lemma LoopStep(c: Coeffs, xs: seq<real>, n: int, z1: real, z2: real, y: real)
    requires 0 <= n < |xs|
    requires z1 == State1(c, xs, n) && z2 == State2(c, xs, n)
    requires y == c.b0 * xs[n] + z1
    ensures y == Y(c, xs, n)
    ensures c.b1 * xs[n] - c.a1 * y + z2 == State1(c, xs, n + 1)
    ensures c.b2 * xs[n] - c.a2 * y == State2(c, xs, n + 1)
  {
    StateStep(c, xs, n);
  }

  /** The transposed direct form II loop that `lfilter` runs, carrying two
      state values; it computes the difference equation. */
  method LFilter(c: Coeffs, xs: seq<real>) returns (ys: seq<real>)
    ensures ys == Response(c, xs)
  {
    var z1, z2 := 0.0, 0.0;
    ys := [];
    var n := 0;
    while n < |xs|
      invariant 0 <= n <= |xs|
      invariant |ys| == n
      invariant forall k :: 0 <= k < n ==> ys[k] == Y(c, xs, k)
      invariant z1 == State1(c, xs, n) && z2 == State2(c, xs, n)
    {
      var y := c.b0 * xs[n] + z1;
      LoopStep(c, xs, n, z1, z2, y);
      z1, z2 := c.b1 * xs[n] - c.a1 * y + z2, c.b2 * xs[n] - c.a2 * y;
      ys := ys + [y];
      n := n + 1;
    }
  }

  /** Silence in, silence out. */
  lemma {:induction false} SilentResponse(c: Coeffs, xs: seq<real>, n: int)
    requires forall k :: 0 <= k < |xs| ==> xs[k] == 0.0
    ensures Y(c, xs, n) == 0.0
    decreases n
  {
    if n >= 0 {
      SilentResponse(c, xs, n - 1);
      SilentResponse(c, xs, n - 2);
    }
  }

  /** The filter is causal: output `n` depends on no input after `n`. */
  lemma {:induction false} Causal(c: Coeffs, xs: seq<real>, zs: seq<real>, n: int)
    requires forall k :: 0 <= k <= n ==> At(xs, k) == At(zs, k)
    ensures Y(c, xs, n) == Y(c, zs, n)
    decreases n
  {
    if n >= 0 {
      Causal(c, xs, zs, n - 1);
      Causal(c, xs, zs, n - 2);
      assert At(xs, n - 1) == At(zs, n - 1) && At(xs, n - 2) == At(zs, n - 2) by {
        if n - 1 >= 0 { assert At(xs, n - 1) == At(zs, n - 1); }
        if n - 2 >= 0 { assert At(xs, n - 2) == At(zs, n - 2); }
      }
    }
  }

  function Lefts(frames: seq<Frame>): (r: seq<real>)
    ensures |r| == |frames| && forall i :: 0 <= i < |frames| ==> r[i] == frames[i].left
  {
    seq(|frames|, i requires 0 <= i < |frames| => frames[i].left)
  }

  function Rights(frames: seq<Frame>): (r: seq<real>)
    ensures |r| == |frames| && forall i :: 0 <= i < |frames| ==> r[i] == frames[i].right
  {
    seq(|frames|, i requires 0 <= i < |frames| => frames[i].right)
  }

  /** As written, `lfilter` runs along the last axis of an (n, 2) array, so
      each frame is filtered as a two-sample signal `[left, right]`. */
  function FrameAsWritten(c: Coeffs, f: Frame): Frame {
    var ys := Response(c, [f.left, f.right]);
    Frame(ys[0], ys[1])
  }

  /** The frame-wise filter in closed form: the right output picks up the
      left input, scaled by `b1 - a1*b0`. */
  lemma FrameAsWrittenClosedForm(c: Coeffs, f: Frame)
    ensures FrameAsWritten(c, f) ==
      Frame(c.b0 * f.left, c.b0 * f.right + (c.b1 - c.a1 * c.b0) * f.left)
  {
    var xs := [f.left, f.right];
    assert Y(c, xs, -1) == 0.0 && Y(c, xs, -2) == 0.0;
    assert Y(c, xs, 0) == c.b0 * f.left;
    assert Y(c, xs, 1) == c.b0 * f.right + c.b1 * f.left - c.a1 * (c.b0 * f.left);
  }

  /** A click on the left channel alone leaks into the right channel of the
      same frame whenever `b1 != a1*b0`, which holds for every Butterworth
      low-pass section (`b1 = 2*b0 > 0`, `a1 < 0`). */
  lemma AsWrittenMixesChannels(c: Coeffs)
    requires c.b1 != c.a1 * c.b0
    ensures FrameAsWritten(c, Frame(1.0, 0.0)).right != 0.0
  {
    FrameAsWrittenClosedForm(c, Frame(1.0, 0.0));
  }

  /** Filtering along time, one channel at a time (`axis=0`). */
  function StereoResponse(c: Coeffs, frames: seq<Frame>): (r: seq<Frame>)
    ensures |r| == |frames|
  {
    var ls := Response(c, Lefts(frames));
    var rs := Response(c, Rights(frames));
    seq(|frames|, i requires 0 <= i < |frames| => Frame(ls[i], rs[i]))
  }

  /** Filtered per channel, a block with a silent right channel keeps it
      silent, and the left channel is the mono response of the left input. */
  lemma ChannelsIndependent(c: Coeffs, frames: seq<Frame>)
    requires forall i :: 0 <= i < |frames| ==> frames[i].right == 0.0
    ensures forall i :: 0 <= i < |frames| ==>
      StereoResponse(c, frames)[i] == Frame(Y(c, Lefts(frames), i), 0.0)
  {
    forall i | 0 <= i < |frames|
      ensures StereoResponse(c, frames)[i].right == 0.0
    {
      SilentResponse(c, Rights(frames), i);
    }
  }

  /** Every frame of a stereo block filtered as a two-sample signal, as
      `lfilter` does along the last axis. */
  function FramesAsWritten(c: Coeffs, frames: seq<Frame>): (r: seq<Frame>)
    ensures |r| == |frames|
    ensures forall i :: 0 <= i < |frames| ==>
      r[i] == Frame(c.b0 * frames[i].left, c.b0 * frames[i].right + (c.b1 - c.a1 * c.b0) * frames[i].left)
  {
    var r := seq(|frames|, i requires 0 <= i < |frames| => FrameAsWritten(c, frames[i]));
    assert forall i :: 0 <= i < |frames| ==>
      r[i] == Frame(c.b0 * frames[i].left, c.b0 * frames[i].right + (c.b1 - c.a1 * c.b0) * frames[i].left) by {
      forall i | 0 <= i < |frames|
        ensures r[i] == Frame(c.b0 * frames[i].left, c.b0 * frames[i].right + (c.b1 - c.a1 * c.b0) * frames[i].left)
      {
        FrameAsWrittenClosedForm(c, frames[i]);
      }
    }
    r
  }

  /** The axis a stereo block is filtered along: the last one, across the
      two channels of a frame, as `lfilter` defaults to (`LastAxis`), or
      time, per channel (`TimeAxis`). */
  datatype Axis = LastAxis | TimeAxis

  /** `AudioFilterNode.process`, filtering stereo blocks along `axis`; the
      node runs it with `LastAxis`. No input gives a silent 1024-frame
      block; a mono block is filtered along time; a stereo block filtered
      along the last axis has each frame filtered on its own, and along time
      has each channel filtered on its own. */
  function ProcessBlock(c: Coeffs, input: Option<Block>, axis: Axis): (r: Block)
    ensures input.None? ==> r == SilentBlock()
    ensures input.Some? ==> r.Length() == input.value.Length() && r.Mono? == input.value.Mono?
    ensures input.Some? && input.value.Mono? ==> r.samples == Response(c, input.value.samples)
    ensures input.Some? && input.value.Stereo? && axis == LastAxis ==>
      var fs := input.value.frames;
      forall i :: 0 <= i < |r.frames| ==>
        r.frames[i] == Frame(c.b0 * fs[i].left, c.b0 * fs[i].right + (c.b1 - c.a1 * c.b0) * fs[i].left)
    ensures input.Some? && input.value.Stereo? && axis == TimeAxis ==>
      forall i :: 0 <= i < |r.frames| ==>
        r.frames[i] == Frame(Y(c, Lefts(input.value.frames), i), Y(c, Rights(input.value.frames), i))
  {
    match input
    case None => SilentBlock()
    case Some(Mono(xs)) => Mono(Response(c, xs))
    case Some(Stereo(frames)) =>
      if axis == LastAxis then Stereo(FramesAsWritten(c, frames)) else Stereo(StereoResponse(c, frames))
  }

  /** Silence passes through as silence of the same shape, along either
      axis. */
  lemma SilenceStaysSilent(c: Coeffs, frames: seq<Frame>, axis: Axis)
    requires forall i :: 0 <= i < |frames| ==> frames[i] == Silent
    ensures var r := ProcessBlock(c, Some(Stereo(frames)), axis);
      r.Stereo? && |r.frames| == |frames| && forall i :: 0 <= i < |frames| ==> r.frames[i] == Silent
  {
    forall i | 0 <= i < |frames|
      ensures ProcessBlock(c, Some(Stereo(frames)), axis).frames[i] == Silent
    {
      SilentResponse(c, Lefts(frames), i);
      SilentResponse(c, Rights(frames), i);
    }
  }

  /** Filtered along time, a stereo block with a silent right channel keeps
      it silent, and its left channel is the mono response of the left
      input. */
  lemma TimeAxisKeepsChannelsApart(c: Coeffs, frames: seq<Frame>)
    requires forall i :: 0 <= i < |frames| ==> frames[i].right == 0.0
    ensures var r := ProcessBlock(c, Some(Stereo(frames)), TimeAxis);
      forall i :: 0 <= i < |frames| ==> r.frames[i] == Frame(Y(c, Lefts(frames), i), 0.0)
  {
    ChannelsIndependent(c, frames);
  }
}
