/** `DelayNode` (audiokit/nodes/effects.py): a feedback delay over a ring
    buffer of stereo frames with a single write cursor. */
module Delay {
  import opened Wrappers
  import opened Audio

  datatype DelayLine = DelayLine(
    delayTime: real,     // milliseconds
    feedback: real,
    mix: real,
    bufferSize: int,
    buffer: seq<Frame>,
    writePos: int)

  /** What the constructor establishes and `process` keeps. A zero-length
      buffer is constructible; only processing a frame with it fails. */
  predicate Valid(d: DelayLine) {
    && d.bufferSize == |d.buffer|
    && 0 <= d.writePos
    && (d.writePos < d.bufferSize || d.writePos == 0)
  }

  /** A line that can process frames: the buffer holds at least one frame. */
  predicate Ready(d: DelayLine) {
    Valid(d) && d.bufferSize >= 1
  }

  datatype DelayError =
    | NegativeDimensions   // np.zeros with a negative frame count
    | ZeroDivision         // `% self.buffer_size` with an empty buffer
    // A two-channel wet frame stored into a scalar slot of a mono output.
    // The loop raises it only after it has written the first sample into
    // the ring and advanced the cursor; `line` is the line it leaves.
    | ShapeMismatch(line: DelayLine)

  /** Which frame the wet path mixes in. `delayed = self.buffer[read_pos]`
      is a view of a buffer row, and the loop overwrites that row before it
      mixes, so the code as written mixes the frame it has just written
      (`RowView`). Reading the frame before the overwrite (`Copy`) gives a
      plain feedback delay. */
  datatype Tap = RowView | Copy

  const DefaultDelayTime: real := 500.0
  const DefaultFeedback: real := 0.3
  const DefaultMix: real := 0.5

  /** The constructor: a silent buffer of `int(delay_time * sample_rate / 1000)`
      frames and the cursor at frame 0. */
  function New(delayTime: real, sampleRate: real, feedback: real, mix: real): (r: Result<DelayLine, DelayError>)
    ensures var n := Trunc(delayTime * sampleRate / 1000.0);
      && (r.Err? <==> n < 0)
      && (r.Ok? ==> && Valid(r.value)
                    && r.value.bufferSize == n
                    && r.value.writePos == 0
                    && r.value.feedback == feedback && r.value.mix == mix
                    && forall i :: 0 <= i < |r.value.buffer| ==> r.value.buffer[i] == Silent)
  {
    var n := Trunc(delayTime * sampleRate / 1000.0);
    if n < 0 then Err(NegativeDimensions)
    else Ok(DelayLine(delayTime, feedback, mix, n, SilentFrames(n), 0))
  }

  /** One frame of the loop body: read, write with feedback, advance, mix. */
  function Step(d: DelayLine, x: Frame, tap: Tap): (r: (DelayLine, Frame))
    requires Ready(d)
    ensures Ready(r.0)
    ensures r.0.bufferSize == d.bufferSize && r.0.feedback == d.feedback && r.0.mix == d.mix
    // the read index `(write_pos - buffer_size) % buffer_size` is the write cursor itself
    ensures r.0.buffer[d.writePos] == Plus(x, Scale(d.buffer[d.writePos], d.feedback))
    ensures forall j :: 0 <= j < d.bufferSize && j != d.writePos ==> r.0.buffer[j] == d.buffer[j]
    ensures r.0.writePos == (d.writePos + 1) % d.bufferSize
    ensures tap == Copy ==> r.1 == Plus(Scale(x, 1.0 - d.mix), Scale(d.buffer[d.writePos], d.mix))
    ensures tap == RowView ==> r.1 == Plus(Scale(x, 1.0 - d.mix), Scale(r.0.buffer[d.writePos], d.mix))
  {
    var n := d.bufferSize;
    var readPos := (d.writePos - n) % n;
    assert readPos == d.writePos by { ReadPosIsWritePos(d.writePos, n); }
    var delayed := d.buffer[readPos];
    var buffer' := d.buffer[d.writePos := Plus(x, Scale(delayed, d.feedback))];
    var wet := if tap == RowView then buffer'[readPos] else delayed;
    var out := Plus(Scale(x, 1.0 - d.mix), Scale(wet, d.mix));
    (d.(buffer := buffer', writePos := (d.writePos + 1) % n), out)
  }

  lemma ReadPosIsWritePos(w: int, n: int)
    requires 0 <= w < n
    ensures (w - n) % n == w
  {
    assert w - n == (-1) * n + w;
  }

  /** As written, one frame outputs the dry frame in full plus `mix *
      feedback` times the frame read back: the mix never attenuates the dry
      signal. */
  lemma RowViewClosedForm(d: DelayLine, x: Frame)
    requires Ready(d)
    ensures Step(d, x, RowView).1 == Plus(x, Scale(d.buffer[d.writePos], d.mix * d.feedback))
  {
    var r := Step(d, x, RowView);
    RowViewMix(x, d.buffer[d.writePos], r.0.buffer[d.writePos], r.1, d.feedback, d.mix);
  }

  /** The row-view mix over plain frames: a wet frame that already holds the
      dry one makes the output `x + mix*fb*o`. */
  lemma RowViewMix(x: Frame, o: Frame, w: Frame, out: Frame, fb: real, mix: real)
    requires w == Plus(x, Scale(o, fb))
    requires out == Plus(Scale(x, 1.0 - mix), Scale(w, mix))
    ensures out == Plus(x, Scale(o, mix * fb))
  {
    MixFrame(x, o, fb, mix);
  }

  lemma MixFrame(x: Frame, o: Frame, fb: real, mix: real)
    ensures Plus(Scale(x, 1.0 - mix), Scale(Plus(x, Scale(o, fb)), mix)) == Plus(x, Scale(o, mix * fb))
  {
    var lhs := Plus(Scale(x, 1.0 - mix), Scale(Plus(x, Scale(o, fb)), mix));
    MixWritten(x.left, o.left, fb, mix);
    MixWritten(x.right, o.right, fb, mix);
    assert lhs.left == x.left + o.left * (mix * fb);
    assert lhs.right == x.right + o.right * (mix * fb);
  }

  lemma MixWritten(x: real, o: real, fb: real, mix: real)
    ensures x * (1.0 - mix) + (x + o * fb) * mix == x + o * (mix * fb)
  {
    assert x * (1.0 - mix) == x - x * mix;
    assert (x + o * fb) * mix == x * mix + o * fb * mix;
    assert o * fb * mix == o * (mix * fb);
  }

  /** The frame loop over a whole stereo block, defined frame by frame from
      the front of the block. */
  function Process(d: DelayLine, xs: seq<Frame>, tap: Tap): (r: (DelayLine, seq<Frame>))
    requires Ready(d)
    ensures Ready(r.0)
    ensures |r.1| == |xs|
    ensures r.0.bufferSize == d.bufferSize && r.0.feedback == d.feedback && r.0.mix == d.mix
    decreases |xs|
  {
    if |xs| == 0 then (d, [])
    else
      var prev := Process(d, xs[..|xs| - 1], tap);
      var next := Step(prev.0, xs[|xs| - 1], tap);
      (next.0, prev.1 + [next.1])
  }

  /** After a block of `k` frames the cursor has advanced by `k` modulo the
      buffer length, and the buffer keeps its length. */
  lemma {:induction false} CursorAdvance(d: DelayLine, xs: seq<Frame>, tap: Tap)
    requires Ready(d)
    ensures Process(d, xs, tap).0.writePos == (d.writePos + |xs|) % d.bufferSize
    decreases |xs|
  {
    if |xs| > 0 {
      CursorAdvance(d, xs[..|xs| - 1], tap);
      WrapAdd(d.writePos, |xs| - 1, d.bufferSize);
    } else {
      DivModUnique(d.writePos, d.bufferSize, 0, d.writePos);
    }
  }

  lemma WrapAdd(w: int, k: nat, n: int)
    requires n >= 1 && 0 <= w
    ensures ((w + k) % n + 1) % n == (w + k + 1) % n
  {
    var a := w + k;
    var q, r := a / n, a % n;
    assert a == q * n + r;
    if r + 1 < n {
      DivModUnique(a + 1, n, q, r + 1);
      DivModUnique(r + 1, n, 0, r + 1);
    } else {
      assert (q + 1) * n == q * n + n;
      DivModUnique(a + 1, n, q + 1, 0);
      DivModUnique(r + 1, n, 1, 0);
    }
  }

  /** `DelayNode.process`, as written: no input yields a silent 1024-frame
      block and leaves the line unchanged; a non-empty block needs a
      non-empty buffer and stereo frames, and runs the frame loop with the
      row view. */
  function ProcessBlock(d: DelayLine, input: Option<Block>): (r: Result<(DelayLine, Block), DelayError>)
    requires Valid(d)
    ensures input.None? ==> r == Ok((d, SilentBlock()))
    ensures input.Some? && input.value.Length() == 0 ==> r == Ok((d, input.value))
    ensures input.Some? && input.value.Length() > 0 && d.bufferSize == 0 ==> r == Err(ZeroDivision)
    // a mono sample broadcasts across the row under the cursor before the
    // output store fails
    ensures input.Some? && input.value.Mono? && input.value.Length() > 0 && d.bufferSize > 0 ==>
              var x := input.value.samples[0];
              && r.Err? && r.error.ShapeMismatch? && Ready(r.error.line) && r.error.line.bufferSize == d.bufferSize
              && r.error.line.buffer[d.writePos] == Plus(Frame(x, x), Scale(d.buffer[d.writePos], d.feedback))
              && (forall j :: 0 <= j < d.bufferSize && j != d.writePos ==> r.error.line.buffer[j] == d.buffer[j])
              && r.error.line.writePos == (d.writePos + 1) % d.bufferSize
              && r.error.line.feedback == d.feedback && r.error.line.mix == d.mix
    ensures input.Some? && input.value.Stereo? && input.value.Length() > 0 && d.bufferSize > 0 ==>
              r == Ok((Process(d, input.value.frames, RowView).0, Stereo(Process(d, input.value.frames, RowView).1)))
    ensures r.Ok? ==> Valid(r.value.0) && r.value.1.Length() == (if input.None? then BlockSize else input.value.Length())
  {
    match input
    case None => Ok((d, SilentBlock()))
    case Some(block) =>
      if block.Length() == 0 then Ok((d, block))
      else if d.bufferSize == 0 then Err(ZeroDivision)
      else if block.Mono? then
        var x := block.samples[0];
        Err(ShapeMismatch(Step(d, Frame(x, x), RowView).0))
      else
        var r := Process(d, block.frames, RowView);
        Ok((r.0, Stereo(r.1)))
  }

  // ---------------------------------------------------------------------
  // Reference semantics: what a fresh line outputs, stated without a ring.

  /** The frame written into the line at time `k` when a fresh line of `n`
      frames is fed `xs`. */
  function Written(xs: seq<Frame>, n: int, fb: real, k: nat): Frame
    requires n >= 1 && k < |xs|
    decreases k, 1
  {
    Plus(xs[k], Scale(Echo(xs, n, fb, k), fb))
  }

  /** The delayed frame read at time `k`: what was written exactly `n`
      frames earlier, or silence if nothing was written that long ago. */
  function Echo(xs: seq<Frame>, n: int, fb: real, k: nat): Frame
    requires n >= 1 && k < |xs|
    decreases k, 0
  {
    if k >= n then Written(xs, n, fb, k - n) else Silent
  }

  function Fresh(n: int, feedback: real, mix: real, delayTime: real): (d: DelayLine)
    requires n >= 1
    ensures Ready(d)
  {
    DelayLine(delayTime, feedback, mix, n, SilentFrames(n), 0)
  }

  /** The ring-buffer contents after `k` frames of `xs`: every slot written
      within the last `n` steps holds what was written there, the rest are
      still silent. */
  ghost predicate RingHolds(d: DelayLine, xs: seq<Frame>, k: nat)
    requires Ready(d) && k <= |xs|
  {
    var n := d.bufferSize;
    && d.writePos == k % n
    && (forall t :: 0 <= t < k && k - n <= t ==> d.buffer[t % n] == Written(xs, n, d.feedback, t))
    && (forall j :: k <= j < n ==> d.buffer[j] == Silent)
  }

  lemma ModShift(k: int, n: int)
    requires n >= 1 && k >= n
    ensures (k - n) % n == k % n && (k - n) / n == k / n - 1
  {
    var q, r := k / n, k % n;
    assert k == q * n + r;
    assert (q - 1) * n == q * n - n;
    DivModUnique(k - n, n, q - 1, r);
  }

  lemma ModDistinct(t: int, k: int, n: int)
    requires n >= 1 && 0 <= t < k < t + n
    ensures t % n != k % n
  {
    var qt, qk := t / n, k / n;
    assert t == qt * n + t % n;
    assert k == qk * n + k % n;
    if t % n == k % n {
      var d := qk - qt;
      assert d * n == qk * n - qt * n;
      assert d * n == k - t;
      if d >= 1 {
        MulAtLeast(d, n);
      } else if d <= -1 {
        MulAtLeast(-d, n);
      }
    }
  }

  lemma SmallMod(k: int, n: int)
    requires 0 <= k < n
    ensures k % n == k
  {
  }

  /** The output frame of the reference semantics at time `k`: the dry
      frame mixed with the frame read back (`Copy`) or with the frame just
      written over it (`RowView`). */
  function RefOut(xs: seq<Frame>, n: int, fb: real, mix: real, k: nat, tap: Tap): Frame
    requires n >= 1 && k < |xs|
  {
    var wet := if tap == RowView then Written(xs, n, fb, k) else Echo(xs, n, fb, k);
    Plus(Scale(xs[k], 1.0 - mix), Scale(wet, mix))
  }

  /** The slot under the write cursor holds the frame written `n` steps
      ago, which is the echo due now. */
  lemma RingRead(d: DelayLine, xs: seq<Frame>, k: nat)
    requires Ready(d) && k < |xs| && RingHolds(d, xs, k)
    ensures d.buffer[d.writePos] == Echo(xs, d.bufferSize, d.feedback, k)
  {
    var n, fb := d.bufferSize, d.feedback;
    if k >= n {
      ModShift(k, n);
      assert d.buffer[(k - n) % n] == Written(xs, n, fb, k - n);
    } else {
      SmallMod(k, n);
      assert d.buffer[k] == Silent;
    }
  }

  /** One frame of the loop emits the reference frame. */
  lemma RingOut(d: DelayLine, xs: seq<Frame>, k: nat, tap: Tap)
    requires Ready(d) && k < |xs| && RingHolds(d, xs, k)
    ensures Step(d, xs[k], tap).1 == RefOut(xs, d.bufferSize, d.feedback, d.mix, k, tap)
  {
    RingRead(d, xs, k);
  }

  /** One frame of the loop keeps `RingHolds`, whichever frame it mixes. */
  lemma RingWrite(d: DelayLine, xs: seq<Frame>, k: nat, tap: Tap)
    requires Ready(d) && k < |xs| && RingHolds(d, xs, k)
    ensures RingHolds(Step(d, xs[k], tap).0, xs, k + 1)
  {
    var n, fb := d.bufferSize, d.feedback;
    var d' := Step(d, xs[k], tap).0;
    RingWritten(d, xs, k, tap);
    CursorNext(d.writePos, k, n);
    forall t | 0 <= t < k && k + 1 - n <= t
      ensures d'.buffer[t % n] == Written(xs, n, fb, t)
    {
      ModDistinct(t, k, n);
      assert d.buffer[t % n] == Written(xs, n, fb, t);
    }
    forall j | k + 1 <= j < n
      ensures d'.buffer[j] == Silent
    {
      SmallMod(k, n);
      assert d.buffer[j] == Silent;
    }
  }

  lemma CursorNext(w: int, k: nat, n: int)
    requires n >= 1 && w == k % n
    ensures (w + 1) % n == (k + 1) % n
  {
    WrapAdd(0, k, n);
  }

  /** The slot under the cursor receives the frame written at time `k`. */
  lemma RingWritten(d: DelayLine, xs: seq<Frame>, k: nat, tap: Tap)
    requires Ready(d) && k < |xs| && RingHolds(d, xs, k)
    ensures Step(d, xs[k], tap).0.buffer[k % d.bufferSize] == Written(xs, d.bufferSize, d.feedback, k)
  {
    RingRead(d, xs, k);
  }

  /** The reference outputs for the whole input. */
  function RefOutputs(xs: seq<Frame>, n: int, fb: real, mix: real, tap: Tap): (r: seq<Frame>)
    requires n >= 1
    ensures |r| == |xs| && forall k :: 0 <= k < |xs| ==> r[k] == RefOut(xs, n, fb, mix, k, tap)
  {
    seq(|xs|, k requires 0 <= k < |xs| => RefOut(xs, n, fb, mix, k, tap))
  }

  /** After the first `k` frames of `xs`, a fresh line's ring holds the
      frames written within the last `n` steps and the outputs so far are
      the reference outputs. */
  lemma {:induction false} RingInvariant(xs: seq<Frame>, n: int, fb: real, mix: real, dt: real, k: nat, tap: Tap)
    requires n >= 1 && k <= |xs|
    ensures RingHolds(Process(Fresh(n, fb, mix, dt), xs[..k], tap).0, xs, k)
    ensures Process(Fresh(n, fb, mix, dt), xs[..k], tap).1 == RefOutputs(xs, n, fb, mix, tap)[..k]
  {
    if k == 0 {
      RingStart(xs, n, fb, mix, dt, tap);
    } else {
      RingInvariant(xs, n, fb, mix, dt, k - 1, tap);
      RingAdvance(Fresh(n, fb, mix, dt), xs, k - 1, tap);
      OutputAdvance(Fresh(n, fb, mix, dt), xs, k - 1, RefOutputs(xs, n, fb, mix, tap), tap);
    }
  }

  /** Before any frame, a fresh line holds nothing and has output nothing. */
  lemma RingStart(xs: seq<Frame>, n: int, fb: real, mix: real, dt: real, tap: Tap)
    requires n >= 1
    ensures RingHolds(Process(Fresh(n, fb, mix, dt), xs[..0], tap).0, xs, 0)
    ensures Process(Fresh(n, fb, mix, dt), xs[..0], tap).1 == RefOutputs(xs, n, fb, mix, tap)[..0]
  {
    assert xs[..0] == [];
    SmallMod(0, n);
  }

  /** If the first `m` frames keep the invariant, so do the first `m + 1`. */
  lemma RingAdvance(d0: DelayLine, xs: seq<Frame>, m: nat, tap: Tap)
    requires Ready(d0) && m < |xs|
    requires RingHolds(Process(d0, xs[..m], tap).0, xs, m)
    ensures RingHolds(Process(d0, xs[..m + 1], tap).0, xs, m + 1)
  {
    var prev := Process(d0, xs[..m], tap);
    PrefixStep(d0, xs, m, tap);
    RingWrite(prev.0, xs, m, tap);
  }

  /** If the first `m` frames keep the invariant and output the first `m`
      reference frames, the first `m + 1` output the first `m + 1`. */
  lemma OutputAdvance(d0: DelayLine, xs: seq<Frame>, m: nat, ref: seq<Frame>, tap: Tap)
    requires Ready(d0) && m < |xs|
    requires ref == RefOutputs(xs, d0.bufferSize, d0.feedback, d0.mix, tap)
    requires RingHolds(Process(d0, xs[..m], tap).0, xs, m)
    requires Process(d0, xs[..m], tap).1 == ref[..m]
    ensures Process(d0, xs[..m + 1], tap).1 == ref[..m + 1]
  {
    var prev := Process(d0, xs[..m], tap);
    PrefixStep(d0, xs, m, tap);
    RingOut(prev.0, xs, m, tap);
    PrefixSnoc(ref, m);
  }

  /** Processing the first `m + 1` frames is processing the first `m` and
      then one step. */
  lemma PrefixStep(d: DelayLine, xs: seq<Frame>, m: nat, tap: Tap)
    requires Ready(d) && m < |xs|
    ensures var prev := Process(d, xs[..m], tap);
      var next := Step(prev.0, xs[m], tap);
      Process(d, xs[..m + 1], tap) == (next.0, prev.1 + [next.1])
  {
    assert xs[..m + 1] == xs[..m] + [xs[m]];
    ProcessSnoc(d, xs[..m], xs[m], tap);
  }

  lemma PrefixSnoc(s: seq<Frame>, m: nat)
    requires m < |s|
    ensures s[..m] + [s[m]] == s[..m + 1]
  {
  }

  /** A fresh line fed `xs` outputs, at every time `k`, the reference frame
      of its tap. With `Copy` that is the dry frame mixed with the frame
      written exactly `bufferSize` frames earlier (silence before that):
      the ring buffer and the write cursor implement an exact delay by
      `bufferSize` frames. */
  lemma FreshOutputIsDelayed(xs: seq<Frame>, n: int, fb: real, mix: real, dt: real, tap: Tap)
    requires n >= 1
    ensures var out := Process(Fresh(n, fb, mix, dt), xs, tap).1;
      forall k :: 0 <= k < |xs| ==> out[k] == RefOut(xs, n, fb, mix, k, tap)
  {
    RingInvariant(xs, n, fb, mix, dt, |xs|, tap);
    assert xs[..|xs|] == xs;
    assert RefOutputs(xs, n, fb, mix, tap)[..|xs|] == RefOutputs(xs, n, fb, mix, tap);
  }

  /** As written, a fresh line outputs at every time `k` the dry frame in
      full plus `mix * feedback` times the echo due at `k`, the frame
      written `bufferSize` frames earlier. */
  lemma AsWrittenOutput(xs: seq<Frame>, n: int, fb: real, mix: real, dt: real)
    requires n >= 1
    ensures var out := Process(Fresh(n, fb, mix, dt), xs, RowView).1;
      forall k :: 0 <= k < |xs| ==> out[k] == Plus(xs[k], Scale(Echo(xs, n, fb, k), mix * fb))
  {
    FreshOutputIsDelayed(xs, n, fb, mix, dt, RowView);
    forall k | 0 <= k < |xs|
      ensures RefOut(xs, n, fb, mix, k, RowView) == Plus(xs[k], Scale(Echo(xs, n, fb, k), mix * fb))
    {
      RefOutAsWritten(xs, n, fb, mix, k);
    }
  }

  lemma RefOutAsWritten(xs: seq<Frame>, n: int, fb: real, mix: real, k: nat)
    requires n >= 1 && k < |xs|
    ensures RefOut(xs, n, fb, mix, k, RowView) == Plus(xs[k], Scale(Echo(xs, n, fb, k), mix * fb))
  {
    var x, e := xs[k], Echo(xs, n, fb, k);
    assert Written(xs, n, fb, k) == Plus(x, Scale(e, fb));
    MixFrame(x, e, fb, mix);
  }

  /** The node as constructed, fed a stereo block: its output is the
      as-written reference output. */
  lemma NewLineAsWritten(delayTime: real, sampleRate: real, fb: real, mix: real, xs: seq<Frame>)
    requires New(delayTime, sampleRate, fb, mix).Ok?
    requires New(delayTime, sampleRate, fb, mix).value.bufferSize >= 1
    requires |xs| > 0
    ensures var d := New(delayTime, sampleRate, fb, mix).value;
      var r := ProcessBlock(d, Some(Stereo(xs)));
      && r.Ok? && r.value.1.Stereo? && |r.value.1.frames| == |xs|
      && forall k :: 0 <= k < |xs| ==>
           r.value.1.frames[k] == Plus(xs[k], Scale(Echo(xs, d.bufferSize, fb, k), mix * fb))
  {
    var d := New(delayTime, sampleRate, fb, mix).value;
    assert d == Fresh(d.bufferSize, fb, mix, delayTime);
    AsWrittenOutput(xs, d.bufferSize, fb, mix, delayTime);
  }

  /** Processing one more frame at the end of a block. */
  lemma ProcessSnoc(d: DelayLine, xs: seq<Frame>, x: Frame, tap: Tap)
    requires Ready(d)
    ensures var prev := Process(d, xs, tap);
      var next := Step(prev.0, x, tap);
      Process(d, xs + [x], tap) == (next.0, prev.1 + [next.1])
  {
    assert (xs + [x])[..|xs + [x]| - 1] == xs;
    assert (xs + [x])[|xs + [x]| - 1] == x;
  }

  /** Consecutive blocks: the line's state carries over, so two blocks
      processed one after the other behave like their concatenation. */
  lemma {:induction false} ProcessConcat(d: DelayLine, xs: seq<Frame>, ys: seq<Frame>, tap: Tap)
    requires Ready(d)
    ensures var first := Process(d, xs, tap);
      var second := Process(first.0, ys, tap);
      Process(d, xs + ys, tap) == (second.0, first.1 + second.1)
    decreases |ys|
  {
    if |ys| == 0 {
      var first := Process(d, xs, tap);
      assert xs + ys == xs;
      assert Process(first.0, ys, tap) == (first.0, []);
      assert first.1 + [] == first.1;
    } else {
      var ys', y := ys[..|ys| - 1], ys[|ys| - 1];
      assert ys == ys' + [y];
      assert xs + ys == (xs + ys') + [y];
      ProcessConcat(d, xs, ys', tap);
      ProcessSnoc(d, xs + ys', y, tap);
      var first := Process(d, xs, tap);
      ProcessSnoc(first.0, ys', y, tap);
      var mid := Process(first.0, ys', tap);
      var last := Step(mid.0, y, tap);
      assert Process(d, xs + ys, tap) == (last.0, (first.1 + mid.1) + [last.1]);
      assert Process(first.0, ys, tap) == (last.0, mid.1 + [last.1]);
      AppendAssoc(first.1, mid.1, [last.1]);
    }
  }

  lemma AppendAssoc(a: seq<Frame>, b: seq<Frame>, c: seq<Frame>)
    ensures (a + b) + c == a + (b + c)
  {
  }

  predicate AllSilent(fs: seq<Frame>) {
    forall i :: 0 <= i < |fs| ==> fs[i] == Silent
  }

  lemma StepSilent(d: DelayLine, x: Frame, tap: Tap)
    requires Ready(d) && AllSilent(d.buffer) && x == Silent
    ensures AllSilent(Step(d, x, tap).0.buffer) && Step(d, x, tap).1 == Silent
  {
    var r := Step(d, x, tap);
    forall j | 0 <= j < |r.0.buffer| ensures r.0.buffer[j] == Silent {
      if j != d.writePos { assert r.0.buffer[j] == d.buffer[j]; }
    }
  }

  /** Silence in, silence out: a line whose buffer is silent, fed silent
      frames, outputs silence and keeps a silent buffer, whatever its
      feedback and mix. */
  lemma {:induction false} SilenceStaysSilent(d: DelayLine, xs: seq<Frame>, tap: Tap)
    requires Ready(d) && AllSilent(d.buffer) && AllSilent(xs)
    ensures AllSilent(Process(d, xs, tap).0.buffer)
    ensures AllSilent(Process(d, xs, tap).1)
    decreases |xs|
  {
    if |xs| > 0 {
      var xs' := xs[..|xs| - 1];
      assert AllSilent(xs') by {
        forall i | 0 <= i < |xs'| ensures xs'[i] == Silent { assert xs'[i] == xs[i]; }
      }
      SilenceStaysSilent(d, xs', tap);
      var prev := Process(d, xs', tap);
      StepSilent(prev.0, xs[|xs| - 1], tap);
      var next := Step(prev.0, xs[|xs| - 1], tap);
      assert Process(d, xs, tap) == (next.0, prev.1 + [next.1]);
      var out := prev.1 + [next.1];
      forall i | 0 <= i < |out| ensures out[i] == Silent {
        if i < |prev.1| { assert out[i] == prev.1[i]; }
      }
    }
  }

  /** A constructed line fed a silent block outputs silence. */
  lemma NewLineSilentOnSilence(delayTime: real, sampleRate: real, fb: real, mix: real, xs: seq<Frame>)
    requires New(delayTime, sampleRate, fb, mix).Ok?
    requires New(delayTime, sampleRate, fb, mix).value.bufferSize >= 1
    requires AllSilent(xs)
    ensures var r := ProcessBlock(New(delayTime, sampleRate, fb, mix).value, Some(Stereo(xs)));
      r.Ok? && AllSilent(r.value.1.frames) && AllSilent(r.value.0.buffer)
  {
    var d := New(delayTime, sampleRate, fb, mix).value;
    SilenceStaysSilent(d, xs, RowView);
  }

  // ---------------------------------------------------------------------
  // Impulse response

  const Unit: Frame := Frame(1.0, 1.0)

  function Pow(x: real, m: nat): real {
    if m == 0 then 1.0 else x * Pow(x, m - 1)
  }

  predicate IsImpulse(xs: seq<Frame>) {
    |xs| >= 1 && xs[0] == Unit && forall i :: 1 <= i < |xs| ==> xs[i] == Silent
  }

  /** Quotient and remainder by repeated subtraction, so that the impulse
      proofs need no non-linear arithmetic. */
  function Quot(k: nat, n: int): nat
    requires n >= 1
  {
    if k < n then 0 else Quot(k - n, n) + 1
  }

  function Rem(k: nat, n: int): nat
    requires n >= 1
  {
    if k < n then k else Rem(k - n, n)
  }

  lemma {:induction false} QuotRem(k: nat, n: int)
    requires n >= 1
    ensures k == Quot(k, n) * n + Rem(k, n) && Rem(k, n) < n
    decreases k
  {
    if k >= n {
      QuotRem(k - n, n);
      assert (Quot(k - n, n) + 1) * n == Quot(k - n, n) * n + n;
    }
  }

  lemma PowStep(x: real, m: nat)
    requires m >= 1
    ensures Pow(x, m) == x * Pow(x, m - 1)
  {
  }

  /** Fed a unit impulse, the line writes `feedback^q` at time `q * n` and
      silence at every time that is not a multiple of its length `n`. */
  lemma {:induction false} ImpulseWritten(xs: seq<Frame>, n: int, fb: real, k: nat)
    requires n >= 1 && k < |xs| && IsImpulse(xs)
    ensures Written(xs, n, fb, k) == (if Rem(k, n) == 0 then Scale(Unit, Pow(fb, Quot(k, n))) else Silent)
    decreases k
  {
    if k >= n {
      ImpulseWritten(xs, n, fb, k - n);
      assert xs[k] == Silent;
      if Rem(k, n) == 0 {
        PowStep(fb, Quot(k, n));
      }
    } else if k > 0 {
      assert xs[k] == Silent;
    }
  }

  /** What a fresh line reads back from its buffer when fed an impulse:
      `feedback^(q-1)` at time `q * n` for `q >= 1`, silence otherwise. */
  lemma ImpulseEcho(xs: seq<Frame>, n: int, fb: real, k: nat)
    requires n >= 1 && k < |xs| && IsImpulse(xs)
    ensures Echo(xs, n, fb, k) ==
      (if k >= n && Rem(k, n) == 0 then Scale(Unit, Pow(fb, Quot(k, n) - 1)) else Silent)
  {
    if k >= n {
      ImpulseWritten(xs, n, fb, k - n);
      assert Rem(k, n) == Rem(k - n, n);
      assert Quot(k, n) - 1 == Quot(k - n, n);
    }
  }

  lemma MixImpulse(x: Frame, e: Frame, mix: real, p: real)
    requires x == Unit || x == Silent
    requires e == Scale(Unit, p) || e == Silent
    ensures e == Silent ==> Plus(Scale(x, 1.0 - mix), Scale(e, mix)) == Scale(x, 1.0 - mix)
    ensures x == Silent && e == Scale(Unit, p) ==> Plus(Scale(x, 1.0 - mix), Scale(e, mix)) == Scale(Unit, mix * p)
    ensures x == Unit && e == Unit ==> Plus(Scale(x, 1.0 - mix), Scale(e, mix)) == Unit
    ensures x == Silent ==> Scale(x, 1.0 - mix) == Silent
  {
  }

  /** The corrected line's impulse response. */
  function ImpulseOut(n: int, fb: real, mix: real, k: nat): Frame
    requires n >= 1
  {
    if k == 0 then Scale(Unit, 1.0 - mix)
    else if k >= n && Rem(k, n) == 0 then Scale(Unit, mix * Pow(fb, Quot(k, n) - 1))
    else Silent
  }

  /** The impulse response as written. */
  function ImpulseOutAsWritten(n: int, fb: real, mix: real, k: nat): Frame
    requires n >= 1
  {
    if k == 0 then Unit
    else if Rem(k, n) == 0 then Scale(Unit, mix * Pow(fb, Quot(k, n)))
    else Silent
  }

  lemma RefImpulse(xs: seq<Frame>, n: int, fb: real, mix: real, k: nat)
    requires n >= 1 && k < |xs| && IsImpulse(xs)
    ensures RefOut(xs, n, fb, mix, k, Copy) == ImpulseOut(n, fb, mix, k)
  {
    ImpulseEcho(xs, n, fb, k);
    var p := if k >= n && Rem(k, n) == 0 then Pow(fb, Quot(k, n) - 1) else 0.0;
    assert k > 0 ==> xs[k] == Silent;
    MixImpulse(xs[k], Echo(xs, n, fb, k), mix, p);
    if k == 0 {
      assert Rem(k, n) == 0;
    }
  }

  lemma RefImpulseAsWritten(xs: seq<Frame>, n: int, fb: real, mix: real, k: nat)
    requires n >= 1 && k < |xs| && IsImpulse(xs)
    ensures RefOut(xs, n, fb, mix, k, RowView) == ImpulseOutAsWritten(n, fb, mix, k)
  {
    ImpulseWritten(xs, n, fb, k);
    var p := if Rem(k, n) == 0 then Pow(fb, Quot(k, n)) else 0.0;
    assert k > 0 ==> xs[k] == Silent;
    if k == 0 {
      assert Rem(k, n) == 0 && Quot(k, n) == 0;
      assert Written(xs, n, fb, k) == Unit;
    }
    MixImpulse(xs[k], Written(xs, n, fb, k), mix, p);
  }

  /** The corrected line's echo of a unit impulse through a fresh line of
      `n` frames: the scaled dry impulse at time 0, `mix * feedback^(q-1)`
      at time `q * n` for every `q >= 1`, and silence at every other
      time. */
  lemma ImpulseResponse(xs: seq<Frame>, n: int, fb: real, mix: real, dt: real)
    requires n >= 1 && IsImpulse(xs)
    ensures var out := Process(Fresh(n, fb, mix, dt), xs, Copy).1;
      forall k :: 0 <= k < |xs| ==> out[k] == ImpulseOut(n, fb, mix, k)
  {
    FreshOutputIsDelayed(xs, n, fb, mix, dt, Copy);
    forall k | 0 <= k < |xs| ensures RefOut(xs, n, fb, mix, k, Copy) == ImpulseOut(n, fb, mix, k) {
      RefImpulse(xs, n, fb, mix, k);
    }
  }

  /** As written, a unit impulse through a fresh line comes out whole at
      time 0, whatever the mix, and as `mix * feedback^q` at time `q * n`
      for every `q >= 1`: the first echo is already scaled by the
      feedback. */
  lemma ImpulseResponseAsWritten(xs: seq<Frame>, n: int, fb: real, mix: real, dt: real)
    requires n >= 1 && IsImpulse(xs)
    ensures var out := Process(Fresh(n, fb, mix, dt), xs, RowView).1;
      forall k :: 0 <= k < |xs| ==> out[k] == ImpulseOutAsWritten(n, fb, mix, k)
  {
    FreshOutputIsDelayed(xs, n, fb, mix, dt, RowView);
    forall k | 0 <= k < |xs| ensures RefOut(xs, n, fb, mix, k, RowView) == ImpulseOutAsWritten(n, fb, mix, k) {
      RefImpulseAsWritten(xs, n, fb, mix, k);
    }
  }
}
