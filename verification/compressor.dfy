/** `CompressorNode` (audiokit/nodes/effects.py): per-sample gain-reduction
    targets smoothed by an envelope with separate attack and release sample
    counts. The level in dB of a sample (`20*log10(|x| + 1e-10)`) and the
    gain of a dB value (`10^(db/20)`) are abstract functions here. */
module Compressor {
  import opened Wrappers
  import opened Audio

  datatype Compressor = Compressor(
    threshold: real,      // dB
    ratio: real,
    attack: real,         // ms
    release: real,        // ms
    makeup: real,         // dB
    attackSamples: int,
    releaseSamples: int,
    envelope: real)

  const DefaultThreshold: real := -20.0
  const DefaultRatio: real := 4.0
  const DefaultAttack: real := 5.0
  const DefaultRelease: real := 50.0
  const DefaultMakeup: real := 0.0

  datatype CompressorError =
    | ZeroDivision       // `1 / ratio` with ratio 0
    | AmbiguousTruth     // comparing a whole stereo row with the envelope

  /** The constructor: attack and release converted to whole samples with
      `int(ms * sample_rate / 1000)`, the envelope at 0 dB. */
  function New(threshold: real, ratio: real, attack: real, release: real, makeup: real,
               sampleRate: real): (c: Compressor)
    ensures c.envelope == 0.0
    ensures c.attackSamples == Trunc(attack * sampleRate / 1000.0)
    ensures c.releaseSamples == Trunc(release * sampleRate / 1000.0)
    ensures c.threshold == threshold && c.ratio == ratio && c.makeup == makeup
  {
    Compressor(threshold, ratio, attack, release, makeup,
               Trunc(attack * sampleRate / 1000.0), Trunc(release * sampleRate / 1000.0), 0.0)
  }

  /** The gain-reduction target as the node computes it:
      `min(0, (level - threshold) * (1 - 1/ratio))`. The sign is inverted
      with respect to a compressor: samples above the threshold get no
      reduction and samples below it are attenuated. */
  function TargetAsWritten(threshold: real, ratio: real, levelDb: real): (t: real)
    requires ratio != 0.0
    ensures t <= 0.0
  {
    var reduction := (levelDb - threshold) * (1.0 - 1.0 / ratio);
    if reduction < 0.0 then reduction else 0.0
  }

  /** At the default settings a full-scale sample (0 dB) is left alone while
      a sample at -40 dB, well under the threshold, loses 15 dB. */
  lemma AsWrittenAttenuatesQuietSamples()
    ensures TargetAsWritten(DefaultThreshold, DefaultRatio, 0.0) == 0.0
    ensures TargetAsWritten(DefaultThreshold, DefaultRatio, -40.0) == -15.0
  {
  }

  /** The gain-reduction target of a downward compressor:
      `min(0, (threshold - level) * (1 - 1/ratio))`. */
  function Target(threshold: real, ratio: real, levelDb: real): (t: real)
    requires ratio != 0.0
    ensures t <= 0.0
  {
    var reduction := (threshold - levelDb) * (1.0 - 1.0 / ratio);
    if reduction < 0.0 then reduction else 0.0
  }

  /** The static curve of the corrected target for a ratio of at least one:
      nothing changes at or under the threshold, and above it the level is
      brought to `threshold + (level - threshold) / ratio`. A ratio of 1
      never reduces. */
  lemma TargetIsCompression(threshold: real, ratio: real, levelDb: real)
    requires ratio >= 1.0
    ensures levelDb <= threshold ==> Target(threshold, ratio, levelDb) == 0.0
    ensures levelDb > threshold ==>
      levelDb + Target(threshold, ratio, levelDb) == threshold + (levelDb - threshold) / ratio
    ensures ratio == 1.0 ==> Target(threshold, ratio, levelDb) == 0.0
  {
    var slope := 1.0 - 1.0 / ratio;
    assert 1.0 / ratio <= 1.0 by {
      assert 1.0 / ratio * ratio == 1.0;
    }
    var reduction := (threshold - levelDb) * slope;
    if levelDb <= threshold {
      assert reduction >= 0.0;
    } else if ratio > 1.0 {
      assert 1.0 / ratio < 1.0 by {
        assert 1.0 / ratio * ratio == 1.0;
      }
      assert reduction < 0.0;
      assert levelDb + reduction == threshold + (levelDb - threshold) / ratio by {
        assert reduction == (threshold - levelDb) + (levelDb - threshold) * (1.0 / ratio);
        assert (levelDb - threshold) * (1.0 / ratio) == (levelDb - threshold) / ratio;
      }
    } else {
      assert slope == 0.0;
      assert reduction == 0.0;
    }
  }

  /** One envelope update: a target below the envelope is approached by
      `1/attackSamples` of the distance, otherwise by `1/releaseSamples`. */
  function EnvStep(env: real, target: real, attackSamples: int, releaseSamples: int): (e: real)
    requires attackSamples != 0 && releaseSamples != 0
    ensures target < env ==> e == env + (target - env) / attackSamples as real
    ensures target >= env ==> e == env + (target - env) / releaseSamples as real
  {
    if target < env then env + (target - env) / attackSamples as real
    else env + (target - env) / releaseSamples as real
  }

  /** With sample counts of at least one, a step is a convex combination:
      the new envelope lies between the old one and the target. */
  lemma EnvStepBetween(env: real, target: real, a: int, r: int)
    requires a >= 1 && r >= 1
    ensures var e := EnvStep(env, target, a, r);
      (target <= env ==> target <= e <= env) && (env <= target ==> env <= e <= target)
  {
    var n := if target < env then a as real else r as real;
    var e := EnvStep(env, target, a, r);
    assert e == env + (target - env) / n;
    assert n >= 1.0;
    if target < env {
      assert (target - env) / n < 0.0;
      assert (target - env) / n >= target - env by {
        assert (target - env) / n * n == target - env;
      }
    } else if env < target {
      assert (target - env) / n > 0.0;
      assert (target - env) / n <= target - env by {
        assert (target - env) / n * n == target - env;
      }
    }
  }

  /** The envelope loop over a block of targets. */
  function Envelope(env: real, targets: seq<real>, a: int, r: int): real
    requires a != 0 && r != 0
    decreases |targets|
  {
    if |targets| == 0 then env else Envelope(EnvStep(env, targets[0], a, r), targets[1..], a, r)
  }

  /** The envelope never leaves an interval that holds its start value and
      every target; in particular it stays at or below 0 dB. */
  lemma {:induction false} EnvelopeBounded(env: real, targets: seq<real>, a: int, r: int, lo: real, hi: real)
    requires a >= 1 && r >= 1
    requires lo <= env <= hi
    requires forall i :: 0 <= i < |targets| ==> lo <= targets[i] <= hi
    ensures lo <= Envelope(env, targets, a, r) <= hi
    decreases |targets|
  {
    if |targets| > 0 {
      EnvStepBetween(env, targets[0], a, r);
      var rest := targets[1..];
      assert forall i :: 0 <= i < |rest| ==> rest[i] == targets[i + 1];
      EnvelopeBounded(EnvStep(env, targets[0], a, r), rest, a, r, lo, hi);
    }
  }

  /** Which gain-reduction curve the loop follows: the node as written
      (`Inverted`, `TargetAsWritten`) or a downward compressor
      (`Downward`, `Target`). */
  datatype Curve = Inverted | Downward

  function CurveTarget(curve: Curve, threshold: real, ratio: real, levelDb: real): (t: real)
    requires ratio != 0.0
    ensures t <= 0.0
  {
    match curve
    case Inverted => TargetAsWritten(threshold, ratio, levelDb)
    case Downward => Target(threshold, ratio, levelDb)
  }

  function Targets(curve: Curve, threshold: real, ratio: real, levelDb: real -> real, xs: seq<real>): (ts: seq<real>)
    requires ratio != 0.0
    ensures |ts| == |xs|
    ensures forall i :: 0 <= i < |xs| ==> ts[i] == CurveTarget(curve, threshold, ratio, levelDb(xs[i]))
  {
    seq(|xs|, i requires 0 <= i < |xs| => CurveTarget(curve, threshold, ratio, levelDb(xs[i])))
  }

  /** `CompressorNode.process`, following `curve`; the node runs it with
      `Inverted`. No input gives a silent 1024-frame block and no state
      change. A mono block moves the envelope through every sample's
      target, then scales the whole block by the gain of the final envelope
      plus makeup. */
  function ProcessBlock(c: Compressor, input: Option<Block>, levelDb: real -> real, dbToGain: real -> real,
                        curve: Curve)
    : (r: Result<(Compressor, Block), CompressorError>)
    requires c.attackSamples != 0 && c.releaseSamples != 0
    ensures input.None? ==> r == Ok((c, SilentBlock()))
    ensures input.Some? && c.ratio == 0.0 ==> r == Err(ZeroDivision)
    ensures input.Some? && c.ratio != 0.0 && input.value.Stereo? ==>
      r == (if |input.value.frames| == 0 then Ok((c, input.value)) else Err(AmbiguousTruth))
    ensures input.Some? && c.ratio != 0.0 && input.value.Mono? ==>
      && r.Ok?
      && var xs := input.value.samples;
         var env := Envelope(c.envelope, Targets(curve, c.threshold, c.ratio, levelDb, xs),
                             c.attackSamples, c.releaseSamples);
         && r.value.0 == c.(envelope := env)
         && r.value.1.Mono? && |r.value.1.samples| == |xs|
         && forall i :: 0 <= i < |xs| ==> r.value.1.samples[i] == xs[i] * dbToGain(env + c.makeup)
  {
    match input
    case None => Ok((c, SilentBlock()))
    case Some(block) =>
      if c.ratio == 0.0 then Err(ZeroDivision)
      else match block
        case Stereo(frames) =>
          if |frames| == 0 then Ok((c, block)) else Err(AmbiguousTruth)
        case Mono(xs) =>
          var env := Envelope(c.envelope, Targets(curve, c.threshold, c.ratio, levelDb, xs),
                              c.attackSamples, c.releaseSamples);
          var gain := dbToGain(env + c.makeup);
          Ok((c.(envelope := env), Mono(seq(|xs|, i requires 0 <= i < |xs| => xs[i] * gain))))
  }

  /** With sample counts of at least one and a non-positive start, the
      envelope stays at or below 0 dB and never drops below a common lower
      bound of its start and the targets, on either curve. */
  lemma EnvelopeNeverBoosts(c: Compressor, xs: seq<real>, levelDb: real -> real, lo: real, curve: Curve)
    requires c.attackSamples >= 1 && c.releaseSamples >= 1 && c.ratio != 0.0
    requires lo <= c.envelope <= 0.0
    requires forall i :: 0 <= i < |xs| ==> lo <= CurveTarget(curve, c.threshold, c.ratio, levelDb(xs[i]))
    ensures var env := Envelope(c.envelope, Targets(curve, c.threshold, c.ratio, levelDb, xs),
                                c.attackSamples, c.releaseSamples);
      lo <= env <= 0.0
  {
    EnvelopeBounded(c.envelope, Targets(curve, c.threshold, c.ratio, levelDb, xs),
                    c.attackSamples, c.releaseSamples, lo, 0.0);
  }

  lemma {:induction false} EnvelopeAtZero(targets: seq<real>, a: int, r: int)
    requires a != 0 && r != 0
    requires forall i :: 0 <= i < |targets| ==> targets[i] == 0.0
    ensures Envelope(0.0, targets, a, r) == 0.0
    decreases |targets|
  {
    if |targets| > 0 {
      var rest := targets[1..];
      assert forall i :: 0 <= i < |rest| ==> rest[i] == targets[i + 1];
      EnvelopeAtZero(rest, a, r);
    }
  }

  /** A ratio of 1 compresses nothing: from a 0 dB envelope every sample is
      only scaled by the makeup gain, whatever the threshold and curve. */
  lemma UnitRatioIsTransparent(c: Compressor, xs: seq<real>, levelDb: real -> real, dbToGain: real -> real,
                               curve: Curve)
    requires c.attackSamples != 0 && c.releaseSamples != 0
    requires c.ratio == 1.0 && c.envelope == 0.0
    ensures var r := ProcessBlock(c, Some(Mono(xs)), levelDb, dbToGain, curve);
      && r.Ok? && r.value.0.envelope == 0.0
      && forall i :: 0 <= i < |xs| ==> r.value.1.samples[i] == xs[i] * dbToGain(c.makeup)
  {
    var ts := Targets(curve, c.threshold, c.ratio, levelDb, xs);
    EnvelopeAtZero(ts, c.attackSamples, c.releaseSamples);
    assert 0.0 + c.makeup == c.makeup;
  }

  /** For a ratio of at least one the slope `1 - 1/ratio` is non-negative. */
  lemma SlopeNonNegative(ratio: real)
    requires ratio >= 1.0
    ensures 1.0 - 1.0 / ratio >= 0.0
  {
    assert 1.0 / ratio * ratio == 1.0;
  }

  /** As written, a mono block whose every sample is at or above the
      threshold passes from a 0 dB envelope with only the makeup gain: the
      loud block is not compressed. */
  lemma LoudBlockPassesAsWritten(c: Compressor, xs: seq<real>, levelDb: real -> real, dbToGain: real -> real)
    requires c.attackSamples != 0 && c.releaseSamples != 0
    requires c.ratio >= 1.0 && c.envelope == 0.0
    requires forall i :: 0 <= i < |xs| ==> levelDb(xs[i]) >= c.threshold
    ensures var r := ProcessBlock(c, Some(Mono(xs)), levelDb, dbToGain, Inverted);
      && r.Ok? && r.value.0.envelope == 0.0
      && forall i :: 0 <= i < |xs| ==> r.value.1.samples[i] == xs[i] * dbToGain(c.makeup)
  {
    var ts := Targets(Inverted, c.threshold, c.ratio, levelDb, xs);
    forall i | 0 <= i < |ts| ensures ts[i] == 0.0 {
      LoudTargetAsWritten(c.threshold, c.ratio, levelDb(xs[i]));
    }
    EnvelopeAtZero(ts, c.attackSamples, c.releaseSamples);
    assert 0.0 + c.makeup == c.makeup;
  }

  /** As written, a level at or above the threshold has a zero target. */
  lemma LoudTargetAsWritten(threshold: real, ratio: real, levelDb: real)
    requires ratio >= 1.0 && levelDb >= threshold
    ensures TargetAsWritten(threshold, ratio, levelDb) == 0.0
  {
    SlopeNonNegative(ratio);
    ProductNonNegative(levelDb - threshold, 1.0 - 1.0 / ratio);
  }

  lemma ProductNonNegative(a: real, b: real)
    requires a >= 0.0 && b >= 0.0
    ensures a * b >= 0.0
  {
  }

  /** With the downward curve, a mono block whose every sample is at or
      below the threshold passes from a 0 dB envelope with only the makeup
      gain: a quiet block is not compressed. */
  lemma QuietBlockPassesCorrected(c: Compressor, xs: seq<real>, levelDb: real -> real, dbToGain: real -> real)
    requires c.attackSamples != 0 && c.releaseSamples != 0
    requires c.ratio >= 1.0 && c.envelope == 0.0
    requires forall i :: 0 <= i < |xs| ==> levelDb(xs[i]) <= c.threshold
    ensures var r := ProcessBlock(c, Some(Mono(xs)), levelDb, dbToGain, Downward);
      && r.Ok? && r.value.0.envelope == 0.0
      && forall i :: 0 <= i < |xs| ==> r.value.1.samples[i] == xs[i] * dbToGain(c.makeup)
  {
    var ts := Targets(Downward, c.threshold, c.ratio, levelDb, xs);
    forall i | 0 <= i < |ts| ensures ts[i] == 0.0 {
      TargetIsCompression(c.threshold, c.ratio, levelDb(xs[i]));
    }
    EnvelopeAtZero(ts, c.attackSamples, c.releaseSamples);
    assert 0.0 + c.makeup == c.makeup;
  }
}
