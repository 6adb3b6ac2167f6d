/**
 * The waveform synthesizer: one note as a sample sequence, shaped by an
 * instrument recipe of sine partials and an exponential decay envelope.
 * `sin` and `exp` are parameters: their numeric values are not modelled, only
 * the facts about `exp` that the envelope's shape rests on (`ExpAxioms`).
 */
module Waveform {
  import opened Numeric

  const Pi: real := 3.141592653589793

  /** The timbre recipes; any unknown instrument name gets `Fallback`. */
  datatype Recipe = Piano | Organ | RetroSynth | Fallback

  /** Instrument dispatch by name: an unrecognised name falls through to the two-partial recipe. */
  function RecipeFor(instrument: string): (r: Recipe)
    ensures r == Piano <==> instrument == "piano"
    ensures r == Organ <==> instrument == "organ"
    ensures r == RetroSynth <==> instrument == "retro_synth"
    ensures r == Fallback <==> instrument !in {"piano", "organ", "retro_synth"}
  {
    if instrument == "piano" then Piano
    else if instrument == "organ" then Organ
    else if instrument == "retro_synth" then RetroSynth
    else Fallback
  }

  /** `np.sign`. */
  function Sign(x: real): (r: real)
    ensures r == -1.0 || r == 0.0 || r == 1.0
    ensures r * x == (if x < 0.0 then -x else x)
    ensures x == 0.0 ==> r == 0.0
  {
    if x > 0.0 then 1.0 else if x < 0.0 then -1.0 else 0.0
  }

  /** One sine partial of frequency `f` at time `t`; at time 0 every partial is at phase 0. */
  function Partial(sin: real -> real, f: real, t: real): (r: real)
    ensures t == 0.0 ==> r == sin(0.0)
  {
    assert t == 0.0 ==> 2.0 * Pi * f * t == 0.0;
    sin(2.0 * Pi * f * t)
  }

  /**
   * The pre-envelope value of a recipe at time `t`. A square wave is -1, 0 or
   * 1; at time 0, where every partial is at sin(0) = 0, every recipe is silent.
   */
  function RawSample(recipe: Recipe, sin: real -> real, f: real, t: real): (r: real)
    ensures recipe == RetroSynth ==> r == -1.0 || r == 0.0 || r == 1.0
    ensures t == 0.0 && sin(0.0) == 0.0 ==> r == 0.0
  {
    match recipe
    case Piano => 0.6 * Partial(sin, f, t) + 0.2 * Partial(sin, f * 2.0, t) + 0.1 * Partial(sin, f * 3.0, t)
    case Organ => 0.5 * Partial(sin, f * 0.5, t) + 0.5 * Partial(sin, f, t) + 0.3 * Partial(sin, f * 2.0, t)
    case RetroSynth => Sign(Partial(sin, f, t))
    case Fallback => 0.6 * Partial(sin, f, t) + 0.2 * Partial(sin, f * 2.0, t)
  }

  /** `int(sample_rate * duration)`, the number of samples of a note: the whole samples that fit in it. */
  function SampleCount(sampleRate: nat, duration: real): (n: int)
    ensures 0.0 <= duration ==> 0 <= n && n as real <= sampleRate as real * duration < n as real + 1.0
  {
    Trunc(sampleRate as real * duration)
  }

  /** The i-th point of `linspace(0, duration, n, endpoint=False)`: it starts at 0 and stops short of `duration`. */
  function TimePoint(duration: real, n: nat, i: nat): (t: real)
    requires i < n
    ensures i == 0 ==> t == 0.0
    ensures 0.0 <= duration ==> 0.0 <= t <= duration
    ensures 0.0 < duration ==> t < duration
  {
    var step := duration / (n as real);
    assert 0.0 <= duration ==> 0.0 <= step && step * (n as real) == duration;
    assert 0.0 <= duration ==> (i as real) * step <= ((n - 1) as real) * step;
    (i as real) * step
  }

  /** The raw waveform of `n` samples; a square wave only takes the values -1, 0 and 1. */
  function RawWave(recipe: Recipe, sin: real -> real, f: real, duration: real, n: nat): (r: seq<real>)
    ensures |r| == n
    ensures recipe == RetroSynth ==> forall i :: 0 <= i < n ==> r[i] == -1.0 || r[i] == 0.0 || r[i] == 1.0
  {
    seq(n, i requires 0 <= i < n => RawSample(recipe, sin, f, TimePoint(duration, n, i)))
  }

  /** The i-th point of `linspace(0, -5, n)` (endpoint included; a single point is 0): between -5 and 0. */
  function DecayExponent(n: nat, i: nat): (x: real)
    requires i < n
    ensures -5.0 <= x <= 0.0
    ensures i == 0 ==> x == 0.0
  {
    if n > 1 then
      var c := -5.0 / ((n - 1) as real);
      assert c * ((n - 1) as real) == -5.0;
      assert (i as real) * c >= ((n - 1) as real) * c;
      (i as real) * c
    else 0.0
  }

  /** The decay envelope `exp(linspace(0, -5, n))`: one value per sample, from exp(0) to exp(-5) inclusive. */
  function Envelope(exp: real -> real, n: nat): (r: seq<real>)
    ensures |r| == n
    ensures n > 0 ==> r[0] == exp(0.0)
    ensures n > 1 ==> r[n - 1] == exp(-5.0)
  {
    assert n > 0 ==> DecayExponent(n, 0) == 0.0;
    assert n > 1 ==> DecayExponent(n, n - 1) == -5.0;
    seq(n, i requires 0 <= i < n => exp(DecayExponent(n, i)))
  }

  /** The facts about `exp` that the envelope's shape needs: exp(0) = 1 and monotonicity. */
  ghost predicate ExpAxioms(exp: real -> real) {
    exp(0.0) == 1.0 && forall x, y :: x <= y ==> exp(x) <= exp(y)
  }

  /** `create_waveform`: samples of the instrument's recipe, multiplied by the decay envelope. */
  function CreateWaveform(frequency: real, duration: real, sampleRate: nat, instrument: string,
                          sin: real -> real, exp: real -> real): (w: seq<real>)
    requires 0.0 <= duration
    ensures |w| == SampleCount(sampleRate, duration)
  {
    var n := SampleCount(sampleRate, duration);
    var data := RawWave(RecipeFor(instrument), sin, frequency, duration, n);
    var envelope := Envelope(exp, |data|);
    seq(n, i requires 0 <= i < n => data[i] * envelope[i])
  }

  /** The default recipe ("default to piano") is the piano recipe without its third harmonic. */
  lemma DefaultIsPianoWithoutThirdHarmonic(sin: real -> real, f: real, t: real)
    ensures RawSample(Piano, sin, f, t) == RawSample(Fallback, sin, f, t) + 0.1 * Partial(sin, f * 3.0, t)
  {
  }

  /** The decay exponents run from 0 down to -5 and never increase. */
  lemma DecayExponentShape(n: nat, i: nat, j: nat)
    requires i <= j < n
    ensures -5.0 <= DecayExponent(n, j) <= DecayExponent(n, i) <= 0.0
    ensures i == 0 ==> DecayExponent(n, i) == 0.0
    ensures n > 1 && j == n - 1 ==> DecayExponent(n, j) == -5.0
  {
    if n > 1 {
      var c := -5.0 / ((n - 1) as real);
      assert c < 0.0;
      assert DecayExponent(n, i) - DecayExponent(n, j) == ((j - i) as real) * (-c);
      assert ((j - i) as real) * (-c) >= 0.0;
      assert (i as real) * c <= 0.0;
      assert DecayExponent(n, j) - (-5.0) == ((n - 1 - j) as real) * (-c);
      assert ((n - 1 - j) as real) * (-c) >= 0.0;
    }
  }

  /**
   * The envelope has one value per sample, starts at exp(0) = 1, never
   * increases, ends at exp(-5), and stays within [exp(-5), 1].
   */
  lemma EnvelopeShape(exp: real -> real, n: nat)
    requires ExpAxioms(exp)
    ensures |Envelope(exp, n)| == n
    ensures n > 0 ==> Envelope(exp, n)[0] == 1.0
    ensures n > 1 ==> Envelope(exp, n)[n - 1] == exp(-5.0)
    ensures forall i, j :: 0 <= i <= j < n ==> Envelope(exp, n)[j] <= Envelope(exp, n)[i]
    ensures forall i :: 0 <= i < n ==> exp(-5.0) <= Envelope(exp, n)[i] <= 1.0
  {
    var env := Envelope(exp, n);
    if n > 0 {
      DecayExponentShape(n, 0, 0);
    }
    if n > 1 {
      DecayExponentShape(n, n - 1, n - 1);
    }
    forall i, j | 0 <= i <= j < n
      ensures env[j] <= env[i]
    {
      DecayExponentShape(n, i, j);
    }
    forall i | 0 <= i < n
      ensures exp(-5.0) <= env[i] <= 1.0
    {
      EnvelopeBounds(exp, n, i);
    }
  }

  lemma EnvelopeBounds(exp: real -> real, n: nat, i: nat)
    requires ExpAxioms(exp) && i < n
    ensures exp(-5.0) <= Envelope(exp, n)[i] <= 1.0
  {
    DecayExponentShape(n, i, i);
  }

  /** A retro-synth note is the envelope with a sign in {-1, 0, 1} applied sample by sample. */
  lemma RetroSynthIsSignedEnvelope(frequency: real, duration: real, sampleRate: nat, sin: real -> real, exp: real -> real)
    requires 0.0 <= duration
    ensures var w := CreateWaveform(frequency, duration, sampleRate, "retro_synth", sin, exp);
            var env := Envelope(exp, |w|);
            forall i :: 0 <= i < |w| ==> w[i] == env[i] || w[i] == 0.0 || w[i] == -env[i]
  {
  }

  /**
   * The envelope only attenuates: once exp(-5) is non-negative, no sample of
   * any instrument exceeds its pre-envelope magnitude.
   */
  lemma EnvelopeAttenuates(frequency: real, duration: real, sampleRate: nat, instrument: string,
                           sin: real -> real, exp: real -> real)
    requires 0.0 <= duration && ExpAxioms(exp) && 0.0 <= exp(-5.0)
    ensures var w := CreateWaveform(frequency, duration, sampleRate, instrument, sin, exp);
            var raw := RawWave(RecipeFor(instrument), sin, frequency, duration, |w|);
            forall i :: 0 <= i < |w| ==> -Abs(raw[i]) <= w[i] <= Abs(raw[i])
  {
    var w := CreateWaveform(frequency, duration, sampleRate, instrument, sin, exp);
    var raw := RawWave(RecipeFor(instrument), sin, frequency, duration, |w|);
    var env := Envelope(exp, |w|);
    forall i | 0 <= i < |w|
      ensures -Abs(raw[i]) <= w[i] <= Abs(raw[i])
    {
      EnvelopeBounds(exp, |w|, i);
      WaveformAt(frequency, duration, sampleRate, instrument, sin, exp, i);
      ScaleByUnit(raw[i], env[i]);
    }
  }

  /** Sample i of a note is its raw sample i scaled by envelope value i. */
  lemma WaveformAt(frequency: real, duration: real, sampleRate: nat, instrument: string,
                   sin: real -> real, exp: real -> real, i: nat)
    requires 0.0 <= duration && i < SampleCount(sampleRate, duration)
    ensures var w := CreateWaveform(frequency, duration, sampleRate, instrument, sin, exp);
            w[i] == RawWave(RecipeFor(instrument), sin, frequency, duration, |w|)[i] * Envelope(exp, |w|)[i]
  {
  }

  lemma ScaleByUnit(x: real, e: real)
    requires 0.0 <= e <= 1.0
    ensures -Abs(x) <= x * e <= Abs(x)
  {
    if x >= 0.0 {
      assert x * e <= x * 1.0;
    } else {
      assert x * e >= x * 1.0;
    }
  }
}
