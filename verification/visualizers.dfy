/** The state kept by the visualisation widgets
    (audiokit/cli/widgets/visualizers.py): the sliding sample window of the
    waveform display and the spectrum analyzer, the analyzer's smoothed
    spectrum, and the peak-hold machine of the VU meter. Drawing, the FFT
    and the logarithm that turns a sample into decibels are not modelled;
    their results are inputs. */
module Visualizers {
  import opened Wrappers
  import Audio

  // ---------------------------------------------------------------------
  // Sliding window

  const WaveformWindow: nat := 1024
  const FftSize: nat := 2048

  function Zeros(n: nat): (r: seq<real>)
    ensures |r| == n && forall i :: 0 <= i < n ==> r[i] == 0.0
  {
    seq(n, _ => 0.0)
  }

  /** `data.mean(axis=1)`: a stereo block becomes the mean of each frame. */
  function Mix(data: Audio.Block): (r: seq<real>)
    ensures |r| == data.Length()
    ensures data.Mono? ==> r == data.samples
    ensures data.Stereo? ==> forall i :: 0 <= i < |r| ==>
      r[i] == (data.frames[i].left + data.frames[i].right) / 2.0
  {
    match data
    case Mono(s) => s
    case Stereo(f) => seq(|f|, i requires 0 <= i < |f| => (f[i].left + f[i].right) / 2.0)
  }

  /** The assignment `buffer[-n:] = data` fails to broadcast. */
  datatype VisError = BroadcastError | ShapeMismatch

  /** `np.roll(buffer, -n)`: every sample moves `n` places towards the
      front, and those pushed off the front wrap round to the back. */
  function Roll(buffer: seq<real>, n: nat): (r: seq<real>)
    ensures |r| == |buffer|
    ensures forall i :: 0 <= i < |buffer| ==> r[i] == buffer[(i + n) % |buffer|]
  {
    if |buffer| == 0 then buffer
    else
      var k := n % |buffer|;
      var r := buffer[k..] + buffer[..k];
      forall i | 0 <= i < |buffer|
        ensures r[i] == buffer[(i + n) % |buffer|]
      {
        RollIndex(i, n, |buffer|);
      }
      r
  }

  /** Where index `i` of a rotation by `n` reads from. */
  lemma RollIndex(i: nat, n: nat, len: nat)
    requires i < len
    ensures var k := n % len;
      (i + n) % len == if i + k < len then i + k else i + k - len
  {
    var k := n % len;
    var q := n / len;
    assert n == q * len + k;
    if i + k < len {
      Audio.DivModUnique(i + n, len, q, i + k);
    } else {
      assert (q + 1) * len == q * len + len;
      Audio.DivModUnique(i + n, len, q + 1, i + k - len);
    }
  }

  /** `self.buffer = np.roll(self.buffer, -n)` followed by
      `self.buffer[-n:] = data`. For `0 < n <= |buffer|` the oldest `n`
      samples drop out and `data` is appended. With no data the slice
      `buffer[-0:]` is the whole buffer, and with more data than the window
      the slice is clipped to the buffer; in both the assignment fails
      unless numpy can broadcast it (nothing, or a single value, into an
      empty buffer). The roll is already stored when the assignment fails. */
  function Slide(buffer: seq<real>, data: seq<real>): (r: (seq<real>, Option<VisError>))
    ensures |r.0| == |buffer|
    ensures r.1.None? <==> 0 < |data| <= |buffer| || (|buffer| == 0 && |data| <= 1)
    ensures 0 < |data| <= |buffer| ==> r.0[|buffer| - |data|..] == data
    ensures 0 < |data| <= |buffer| ==>
      forall i :: 0 <= i < |buffer| - |data| ==> r.0[i] == buffer[i + |data|]
    ensures r.1.Some? ==> r == (Roll(buffer, |data|), Some(BroadcastError))
  {
    var n := |data|;
    if 0 < n <= |buffer| then (buffer[n..] + data, None)
    else if |buffer| == 0 && n <= 1 then (buffer, None)
    else (Roll(buffer, n), Some(BroadcastError))
  }

  /** Two slides in a row are one slide of the concatenated data, while the
      data fits the window. */
  lemma SlideTwice(buffer: seq<real>, a: seq<real>, b: seq<real>)
    requires 0 < |a| && 0 < |b| && |a| + |b| <= |buffer|
    ensures Slide(Slide(buffer, a).0, b) == Slide(buffer, a + b)
  {
    var once := Slide(buffer, a).0;
    assert once == buffer[|a|..] + a;
    assert once[|b|..] + b == buffer[|a| + |b|..] + (a + b);
  }

  /** A full window of new data replaces the buffer entirely. */
  lemma FullSlideReplaces(buffer: seq<real>, data: seq<real>)
    requires 0 < |data| == |buffer|
    ensures Slide(buffer, data) == (data, None)
  {
    assert buffer[|data|..] == [];
    assert [] + data == data;
  }

  /** A failed slide leaves the buffer rotated: rolling by the window size
      (or any multiple of it) gives it back unchanged. */
  lemma RollByWindow(buffer: seq<real>, q: nat)
    ensures Roll(buffer, q * |buffer|) == buffer
  {
    var r := Roll(buffer, q * |buffer|);
    forall i | 0 <= i < |buffer|
      ensures r[i] == buffer[i]
    {
      Audio.DivModUnique(i + q * |buffer|, |buffer|, q, i);
    }
  }

  /** `WaveformDisplay.update_buffer`. */
  function UpdateWaveform(buffer: seq<real>, data: Audio.Block): (r: (seq<real>, Option<VisError>))
    ensures |r.0| == |buffer|
    ensures r.1.None? <==> 0 < data.Length() <= |buffer| || (|buffer| == 0 && data.Length() <= 1)
    ensures 0 < data.Length() <= |buffer| ==> r.0[|buffer| - data.Length()..] == Mix(data)
    ensures 0 < data.Length() <= |buffer| ==>
      forall i :: 0 <= i < |buffer| - data.Length() ==> r.0[i] == buffer[i + data.Length()]
    ensures r.1.Some? ==> r.1 == Some(BroadcastError) && r.0 == Roll(buffer, data.Length())
  {
    Slide(buffer, Mix(data))
  }

  // ---------------------------------------------------------------------
  // Spectrum analyzer

  const Smoothing: real := 0.8

  datatype Analyzer = Analyzer(buffer: seq<real>, spectrum: seq<real>)

  /** The number of values `np.fft.rfft` returns for `n` samples. */
  function RfftLength(n: nat): nat {
    n / 2 + 1
  }

  /** The analyzer as constructed: a spectrum of `fft_size // 2` values. */
  function NewAnalyzerAsWritten(fftSize: nat): (a: Analyzer)
    ensures |a.buffer| == fftSize && |a.spectrum| == fftSize / 2
  {
    Analyzer(Zeros(fftSize), Zeros(fftSize / 2))
  }

  /** The analyzer with as many spectrum values as the transform yields. */
  function NewAnalyzer(fftSize: nat): (a: Analyzer)
    ensures |a.buffer| == fftSize && |a.spectrum| == RfftLength(fftSize)
  {
    Analyzer(Zeros(fftSize), Zeros(RfftLength(fftSize)))
  }

  /** numpy broadcasting of two one-dimensional arrays of lengths `m` and
      `n`: equal lengths, or one of them 1. */
  predicate Broadcastable(m: nat, n: nat) {
    m == n || m == 1 || n == 1
  }

  /** The value at `i` of `x` broadcast to a longer length: a one-element
      array repeats its element. */
  function At(x: seq<real>, i: nat): real
    requires |x| == 1 || i < |x|
  {
    if |x| == 1 then x[0] else x[i]
  }

  /** `SpectrumAnalyzer.update_buffer`, given the decibel spectrum of the
      new window (the transform itself is not modelled): the window slides,
      then the stored spectrum moves a fifth of the way towards the new
      one, elementwise after numpy broadcasting. The window is already
      updated when the smoothing step fails. */
  function UpdateSpectrum(a: Analyzer, data: Audio.Block, measured: seq<real>): (r: (Analyzer, Option<VisError>))
    ensures r.1.None? <==> Slide(a.buffer, Mix(data)).1.None? && Broadcastable(|a.spectrum|, |measured|)
    ensures r.0.buffer == Slide(a.buffer, Mix(data)).0
    ensures Slide(a.buffer, Mix(data)).1.Some? ==>
      r == (a.(buffer := Roll(a.buffer, data.Length())), Some(BroadcastError))
    ensures r.1 == Some(ShapeMismatch) ==> r.0.spectrum == a.spectrum
    ensures r.1.None? ==> |r.0.spectrum| == if |a.spectrum| == 1 then |measured| else |a.spectrum|
    ensures r.1.None? ==> forall i :: 0 <= i < |r.0.spectrum| ==>
      r.0.spectrum[i] - At(measured, i) == Smoothing * (At(a.spectrum, i) - At(measured, i))
  {
    var (buffer, e) := Slide(a.buffer, Mix(data));
    if e.Some? then (a.(buffer := buffer), e)
    else if !Broadcastable(|a.spectrum|, |measured|) then (Analyzer(buffer, a.spectrum), Some(ShapeMismatch))
    else
      var n := if |a.spectrum| == 1 then |measured| else |a.spectrum|;
      var s := seq(n, i requires 0 <= i < n => Smoothing * At(a.spectrum, i) + (1.0 - Smoothing) * At(measured, i));
      (Analyzer(buffer, s), None)
  }

  /** As written, the first update of a new analyzer of at least four
      samples always fails: the transform yields one value more than the
      stored spectrum holds, and neither holds a single value that numpy
      could broadcast. */
  lemma AsWrittenSpectrumNeverUpdates(fftSize: nat, data: Audio.Block, measured: seq<real>)
    requires fftSize >= 4 && |measured| == RfftLength(fftSize)
    ensures UpdateSpectrum(NewAnalyzerAsWritten(fftSize), data, measured).1.Some?
  {
  }

  /** With the spectrum sized by the transform, every update whose data
      fits the window succeeds and keeps the sizes, so the next one does
      too. */
  lemma SpectrumUpdateSucceeds(a: Analyzer, data: Audio.Block, measured: seq<real>)
    requires |a.spectrum| == RfftLength(|a.buffer|)
    requires 0 < data.Length() <= |a.buffer|
    requires |measured| == RfftLength(|a.buffer|)
    ensures UpdateSpectrum(a, data, measured).1.None?
    ensures |UpdateSpectrum(a, data, measured).0.buffer| == |a.buffer|
    ensures |UpdateSpectrum(a, data, measured).0.spectrum| == RfftLength(|a.buffer|)
  {
  }

  // ---------------------------------------------------------------------
  // VU meter

  const Styles: set<string> := {"classic", "modern", "minimal", "retro", "digital", "pro"}
  const Floor: real := -60.0
  const HoldTime: int := 30

  datatype Meter = Meter(style: string, level: real, peak: real, holdTime: int, counter: int)

  /** The meter's invariant: the peak is never below the level and the
      hold counter stays within the hold time. */
  predicate Valid(m: Meter) {
    m.peak >= m.level && 0 <= m.counter <= m.holdTime
  }

  /** `VUMeter.__init__`: an unknown style is a lookup error. */
  function NewMeter(style: string): (r: Option<Meter>)
    ensures r.Some? <==> style in Styles
    ensures r.Some? ==> Valid(r.value) && r.value.level == Floor && r.value.peak == Floor &&
                        r.value.holdTime == HoldTime && r.value.counter == 0
  {
    if style in Styles then Some(Meter(style, Floor, Floor, HoldTime, 0)) else None
  }

  /** `update_level`, given the new level in decibels: a new peak restarts
      the hold, a held peak counts down, and then the peak falls half a
      decibel per update but never below the level. */
  function UpdateLevel(m: Meter, db: real): (r: Meter)
    ensures r.level == db && r.style == m.style && r.holdTime == m.holdTime
    ensures r.peak >= r.level
    ensures db > m.peak ==> r.peak == db && r.counter == m.holdTime
    ensures db <= m.peak && m.counter > 0 ==> r.peak == m.peak && r.counter == m.counter - 1
    ensures db <= m.peak && m.counter <= 0 ==>
      (r.counter == m.counter && r.peak <= m.peak && r.peak >= m.peak - 0.5 &&
       (r.peak == db || r.peak == m.peak - 0.5))
  {
    if db > m.peak then m.(level := db, peak := db, counter := m.holdTime)
    else if m.counter > 0 then m.(level := db, counter := m.counter - 1)
    else m.(level := db, peak := if db > m.peak - 0.5 then db else m.peak - 0.5)
  }

  /** Every update keeps the meter valid. */
  lemma UpdateKeepsValid(m: Meter, db: real)
    requires Valid(m)
    ensures Valid(UpdateLevel(m, db))
  {
  }

  function UpdateLevels(m: Meter, dbs: seq<real>): (r: Meter)
    decreases |dbs|
  {
    if |dbs| == 0 then m else UpdateLevels(UpdateLevel(m, dbs[0]), dbs[1..])
  }

  /** After a new peak and `k` quieter updates with `k` within the hold
      time, the peak is still held. */
  lemma {:induction false} PeakHeld(m: Meter, dbs: seq<real>)
    requires Valid(m) && |dbs| <= m.counter
    requires forall i :: 0 <= i < |dbs| ==> dbs[i] <= m.peak
    ensures UpdateLevels(m, dbs).peak == m.peak
    ensures UpdateLevels(m, dbs).counter == m.counter - |dbs|
    ensures Valid(UpdateLevels(m, dbs))
    decreases |dbs|
  {
    if |dbs| > 0 {
      var next := UpdateLevel(m, dbs[0]);
      assert forall i :: 0 <= i < |dbs[1..]| ==> dbs[1..][i] == dbs[i + 1];
      PeakHeld(next, dbs[1..]);
    }
  }
}
