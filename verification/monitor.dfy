/** The audio monitor widget (audiokit/cli/widgets/monitor.py): its own
    level and peak-hold arrays, and how input blocks reach the waveform,
    spectrum and VU meter children. */
module Monitor {
  import opened Wrappers
  import Audio
  import V = Visualizers

  const Decay: real := 0.95

  datatype Monitor = Monitor(
    inputLevels: seq<real>,
    outputLevels: seq<real>,
    peakHold: seq<real>,
    decay: real,
    waveform: seq<real>,
    analyzer: V.Analyzer,
    meter: V.Meter)

  function Max(a: real, b: real): (r: real)
    ensures r >= a && r >= b && (r == a || r == b)
  {
    if a >= b then a else b
  }

  predicate Sized(m: Monitor) {
    |m.inputLevels| == 2 && |m.outputLevels| == 2 && |m.peakHold| == 2
  }

  predicate AllZero(m: Monitor) {
    Sized(m) && forall ch :: 0 <= ch < 2 ==>
      m.inputLevels[ch] == 0.0 && m.outputLevels[ch] == 0.0 && m.peakHold[ch] == 0.0
  }

  /** A new monitor (its children as `compose` creates them): two channels
      of zero levels, decay 0.95, a modern-style meter, a 1024-sample
      waveform window and a 2048-sample analyzer. */
  function New(): (m: Monitor)
    ensures AllZero(m) && m.decay == Decay
    ensures |m.waveform| == V.WaveformWindow && |m.analyzer.buffer| == V.FftSize
    ensures V.Valid(m.meter) && m.meter.style == "modern"
  {
    Monitor([0.0, 0.0], [0.0, 0.0], [0.0, 0.0], Decay, V.Zeros(V.WaveformWindow),
            V.NewAnalyzer(V.FftSize), V.Meter("modern", V.Floor, V.Floor, V.HoldTime, 0))
  }

  /** Every value multiplied by `k`. */
  function Scaled(xs: seq<real>, k: real): (r: seq<real>)
    ensures |r| == |xs| && forall i :: 0 <= i < |xs| ==> r[i] == xs[i] * k
  {
    seq(|xs|, i requires 0 <= i < |xs| => xs[i] * k)
  }

  /** `np.maximum(peak * k, np.maximum(a, b))`. */
  function Held(peak: seq<real>, k: real, a: seq<real>, b: seq<real>): (r: seq<real>)
    requires |a| == |peak| && |b| == |peak|
    ensures |r| == |peak|
    ensures forall i :: 0 <= i < |peak| ==> r[i] >= peak[i] * k && r[i] >= a[i] && r[i] >= b[i]
    ensures forall i :: 0 <= i < |peak| ==> r[i] == peak[i] * k || r[i] == a[i] || r[i] == b[i]
  {
    seq(|peak|, i requires 0 <= i < |peak| => HeldAt(peak[i], k, a[i], b[i]))
  }

  function HeldAt(peak: real, k: real, a: real, b: real): (r: real)
    ensures r >= peak * k && r >= a && r >= b
    ensures r == peak * k || r == a || r == b
  {
    Max(peak * k, Max(a, b))
  }

  /** `update_levels`: the levels decay, and the peak hold decays but never
      below either level. Nothing else changes. */
  function UpdateLevels(m: Monitor): (r: Monitor)
    requires Sized(m)
    ensures Sized(r) && r.decay == m.decay
    ensures r.waveform == m.waveform && r.analyzer == m.analyzer && r.meter == m.meter
  {
    var input := Scaled(m.inputLevels, m.decay);
    var output := Scaled(m.outputLevels, m.decay);
    m.(inputLevels := input, outputLevels := output, peakHold := Held(m.peakHold, m.decay, input, output))
  }

  /** Each level is multiplied by the decay factor. */
  lemma LevelsDecay(m: Monitor)
    requires Sized(m)
    ensures UpdateLevels(m).inputLevels == Scaled(m.inputLevels, m.decay)
    ensures UpdateLevels(m).outputLevels == Scaled(m.outputLevels, m.decay)
  {
  }

  /** The peak hold is the decayed peak or a new level, whichever is
      largest. */
  lemma PeakHoldCovers(m: Monitor)
    requires Sized(m)
    ensures var r := UpdateLevels(m);
      forall ch :: 0 <= ch < 2 ==>
        && r.peakHold[ch] >= r.inputLevels[ch] && r.peakHold[ch] >= r.outputLevels[ch]
        && r.peakHold[ch] >= m.peakHold[ch] * m.decay
        && (r.peakHold[ch] == m.peakHold[ch] * m.decay || r.peakHold[ch] == r.inputLevels[ch] ||
            r.peakHold[ch] == r.outputLevels[ch])
  {
    var r := UpdateLevels(m);
    assert r.peakHold == Held(m.peakHold, m.decay, r.inputLevels, r.outputLevels);
  }

  /** With a decay in [0, 1] and non-negative levels, an update never
      raises a level and keeps it non-negative. */
  lemma LevelsNeverRise(m: Monitor)
    requires Sized(m) && 0.0 <= m.decay <= 1.0
    requires forall ch :: 0 <= ch < 2 ==> m.inputLevels[ch] >= 0.0 && m.outputLevels[ch] >= 0.0
    ensures forall ch :: 0 <= ch < 2 ==>
      0.0 <= UpdateLevels(m).inputLevels[ch] <= m.inputLevels[ch] &&
      0.0 <= UpdateLevels(m).outputLevels[ch] <= m.outputLevels[ch]
  {
    ScaledNeverRises(m.inputLevels, m.decay);
    ScaledNeverRises(m.outputLevels, m.decay);
  }

  lemma ScaledNeverRises(xs: seq<real>, k: real)
    requires 0.0 <= k <= 1.0 && forall i :: 0 <= i < |xs| ==> xs[i] >= 0.0
    ensures forall i :: 0 <= i < |xs| ==> 0.0 <= Scaled(xs, k)[i] <= xs[i]
  {
    var r := Scaled(xs, k);
    forall i | 0 <= i < |xs|
      ensures 0.0 <= r[i] <= xs[i]
    {
      MulShrinks(xs[i], k, r[i]);
    }
  }

  lemma MulShrinks(x: real, k: real, y: real)
    requires x >= 0.0 && 0.0 <= k <= 1.0 && y == x * k
    ensures 0.0 <= y <= x
  {
    assert x - y == x * (1.0 - k);
  }

  /** `update_input_levels`, given the block's decibel spectrum and peak
      level: the waveform, then the spectrum, then the meter are updated;
      a failing child stops the rest, leaving earlier children updated.
      The monitor's own level arrays are not touched. */
  function UpdateInputLevels(m: Monitor, data: Audio.Block, measured: seq<real>, db: real)
    : (r: (Monitor, Option<V.VisError>))
    ensures r.0.inputLevels == m.inputLevels && r.0.outputLevels == m.outputLevels && r.0.peakHold == m.peakHold
    ensures r.0.decay == m.decay
    ensures r.1.None? ==> r.0.meter == V.UpdateLevel(m.meter, db)
    ensures r.1.Some? ==> r.0.meter == m.meter
    // the waveform always takes the block, even when its own slide fails
    ensures r.0.waveform == V.UpdateWaveform(m.waveform, data).0
    // a failing waveform stops before the analyzer
    ensures V.UpdateWaveform(m.waveform, data).1.Some? ==>
      r.0.analyzer == m.analyzer && r.1 == V.UpdateWaveform(m.waveform, data).1
    // otherwise the analyzer takes the block and decides the outcome
    ensures V.UpdateWaveform(m.waveform, data).1.None? ==>
      r.0.analyzer == V.UpdateSpectrum(m.analyzer, data, measured).0 &&
      r.1 == V.UpdateSpectrum(m.analyzer, data, measured).1
  {
    var (w, e) := V.UpdateWaveform(m.waveform, data);
    if e.Some? then (m.(waveform := w), e)
    else
      var (a, err) := V.UpdateSpectrum(m.analyzer, data, measured);
      var m1 := m.(waveform := w, analyzer := a);
      if err.Some? then (m1, err)
      else (m1.(meter := V.UpdateLevel(m.meter, db)), None)
  }

  /** `update_output_levels` does nothing. */
  function UpdateOutputLevels(m: Monitor, data: Audio.Block): (r: Monitor)
    ensures r == m
  {
    m
  }

  /** The events the monitor reacts to. */
  datatype Event = Tick | InputBlock(data: Audio.Block, measured: seq<real>, db: real) | OutputBlock(data: Audio.Block)

  function Step(m: Monitor, e: Event): (r: Monitor)
    requires Sized(m)
    ensures Sized(r)
  {
    match e
    case Tick => UpdateLevels(m)
    case InputBlock(data, measured, db) => UpdateInputLevels(m, data, measured, db).0
    case OutputBlock(data) => UpdateOutputLevels(m, data)
  }

  function Run(m: Monitor, events: seq<Event>): (r: Monitor)
    requires Sized(m)
    ensures Sized(r)
    decreases |events|
  {
    if |events| == 0 then m else Run(Step(m, events[0]), events[1..])
  }

  /** Nothing ever writes a level, so from a new monitor the level and
      peak-hold meters read zero forever, whatever audio arrives. */
  lemma {:induction false} LevelsStayZero(m: Monitor, events: seq<Event>)
    requires AllZero(m)
    ensures AllZero(Run(m, events))
    decreases |events|
  {
    if |events| > 0 {
      var next := Step(m, events[0]);
      LevelsStayZero(next, events[1..]);
    }
  }

  /** An input block that fits the windows reaches the meter. */
  lemma InputReachesMeter(data: Audio.Block, measured: seq<real>, db: real)
    requires 0 < data.Length() <= V.WaveformWindow
    requires |measured| == V.RfftLength(V.FftSize)
    ensures UpdateInputLevels(New(), data, measured, db).1.None?
    ensures UpdateInputLevels(New(), data, measured, db).0.meter.level == db
  {
    V.SpectrumUpdateSucceeds(New().analyzer, data, measured);
  }
}
