/**
 * The track mixer of `generate_music`: every melody event is rendered into a
 * zero-filled sample buffer at the sample cursor (melody voice, then the
 * current chord's organ voices), the cursor advances by the event's length in
 * samples, the chord index follows the bar-boundary rule, and the finished
 * buffer is peak-normalized and converted to 16-bit integers.
 */
module Mixer {
  import opened Numeric
  import opened Catalog
  import opened Waveform
  import opened Melody

  const SampleRate: nat := 44100
  const MelodyGain: real := 0.45
  const ChordGain: real := 0.20

  /** `int(duration * sample_rate)`: the cursor step of one event, the whole samples that fit in it. */
  function DurationSamples(duration: real): (n: int)
    ensures 0.0 <= duration ==> 0 <= n && n as real <= duration * SampleRate as real < n as real + 1.0
  {
    Trunc(duration * SampleRate as real)
  }

  /** `int((quarter_note_duration * 4) * sample_rate)`: one bar of four beats, in samples. */
  function BarSamples(bpm: int): (n: int)
    requires 0 < bpm
    ensures 0 <= n && n as real <= (QuarterNote(bpm) * 4.0) * SampleRate as real < n as real + 1.0
  {
    Trunc((QuarterNote(bpm) * 4.0) * SampleRate as real)
  }

  /** What the mixer needs of a mood: a tempo, a non-empty progression, a positive bar and resolvable scale notes. */
  predicate Playable(m: Mood) {
    0 < m.bpm && 0 < |m.chords| && 0 < BarSamples(m.bpm) && ScaleResolves(m)
  }

  /** Every mood of the catalog can be mixed. */
  lemma CatalogMoodsPlayable(key: string)
    requires key in Moods
    ensures Playable(Moods[key])
  {
    CatalogScalesResolve(key);
  }

  /** An event the mixer can render: a non-negative duration and a rest or a note with a frequency. */
  predicate Mixable(e: Event) {
    0.0 <= e.duration && (e.note == Rest || e.note in Notes)
  }

  predicate AllMixable(events: seq<Event>) {
    forall j :: 0 <= j < |events| ==> Mixable(events[j])
  }

  /** The samples all events occupy, one cursor step each. */
  function SumSamples(events: seq<Event>): int {
    if events == [] then 0 else DurationSamples(events[0].duration) + SumSamples(events[1..])
  }

  // ----- slice accumulation -----

  /** `buffer[start:start + len(wave)] += wave * gain`, the in-place slice update, as a value. */
  function AddScaled(s: seq<real>, start: nat, wave: seq<real>, gain: real): (r: seq<real>)
    ensures |r| == |s|
  {
    seq(|s|, i requires 0 <= i < |s| => if start <= i < start + |wave| then s[i] + wave[i - start] * gain else s[i])
  }

  method AccumulateSlice(a: array<real>, start: nat, wave: seq<real>, gain: real)
    requires start + |wave| <= a.Length
    modifies a
    ensures a[..] == AddScaled(old(a[..]), start, wave, gain)
  {
    ghost var before := a[..];
    forall i | start <= i < start + |wave| {
      a[i] := a[i] + wave[i - start] * gain;
    }
    assert forall i :: 0 <= i < a.Length ==> a[..][i] == AddScaled(before, start, wave, gain)[i];
  }

  // ----- one event -----

  /** The organ voices of a chord, added in order; a note missing from the tone library is skipped. */
  function ChordVoices(s: seq<real>, pos: nat, notes: Chord, duration: real, sin: real -> real, exp: real -> real): (r: seq<real>)
    requires 0.0 <= duration
    ensures |r| == |s|
    decreases |notes|
  {
    if notes == [] then s
    else
      var voiced := if notes[0] in Notes
        then AddScaled(s, pos, CreateWaveform(Notes[notes[0]], duration, SampleRate, "organ", sin, exp), ChordGain)
        else s;
      ChordVoices(voiced, pos, notes[1..], duration, sin, exp)
  }

  /** The melody voice at melody gain (unless the event rests), then the chord voices. */
  function MixEvent(s: seq<real>, pos: nat, e: Event, chord: Chord, instrument: string,
                    sin: real -> real, exp: real -> real): (r: seq<real>)
    requires Mixable(e)
    ensures |r| == |s|
  {
    var withMelody := if e.note != Rest
      then AddScaled(s, pos, CreateWaveform(Notes[e.note], e.duration, SampleRate, instrument, sin, exp), MelodyGain)
      else s;
    ChordVoices(withMelody, pos, chord, e.duration, sin, exp)
  }

  method AddChord(a: array<real>, pos: nat, notes: Chord, duration: real, sin: real -> real, exp: real -> real)
    requires 0.0 <= duration && pos + DurationSamples(duration) <= a.Length
    modifies a
    ensures a[..] == ChordVoices(old(a[..]), pos, notes, duration, sin, exp)
  {
    for j := 0 to |notes|
      invariant ChordVoices(a[..], pos, notes[j..], duration, sin, exp) == ChordVoices(old(a[..]), pos, notes, duration, sin, exp)
    {
      assert notes[j..][1..] == notes[j + 1..];
      var noteName := notes[j];
      if noteName in Notes {
        var freq := Notes[noteName];
        var chordWave := CreateWaveform(freq, duration, SampleRate, "organ", sin, exp);
        AccumulateSlice(a, pos, chordWave, ChordGain);
      }
    }
  }

  // ----- the cursor and the chord index -----

  /** The mixer's integer state: the sample cursor and the index into the chord progression. */
  datatype Cursor = Cursor(pos: nat, chord: nat)

  /** Advance the cursor by one event; step to the next chord when the new position is within `ds` past a bar line. */
  function NextCursor(c: Cursor, ds: nat, bar: int, chords: nat): (r: Cursor)
    requires 0 < bar && 0 < chords
    ensures r.pos == c.pos + ds
    ensures c.chord < chords ==> r.chord < chords
  {
    var pos := c.pos + ds;
    Cursor(pos, if pos % bar < ds then (c.chord + 1) % chords else c.chord)
  }

  /** The cursor after a sequence of events. */
  function Track(c: Cursor, events: seq<Event>, m: Mood): (r: Cursor)
    requires Playable(m) && AllMixable(events) && c.chord < |m.chords|
    ensures r.pos == c.pos + SumSamples(events)
    ensures r.chord < |m.chords|
    decreases |events|
  {
    if events == [] then c
    else
      assert AllMixable(events[1..]) by { assert forall j :: 0 <= j < |events| - 1 ==> events[1..][j] == events[j + 1]; }
      Track(NextCursor(c, DurationSamples(events[0].duration), BarSamples(m.bpm), |m.chords|), events[1..], m)
  }

  /** Tracking one more event is one more cursor step from where the others left it. */
  lemma {:induction false} TrackAppend(c: Cursor, events: seq<Event>, e: Event, m: Mood)
    requires Playable(m) && AllMixable(events) && Mixable(e) && c.chord < |m.chords|
    ensures AllMixable(events + [e])
    ensures Track(c, events + [e], m)
            == NextCursor(Track(c, events, m), DurationSamples(e.duration), BarSamples(m.bpm), |m.chords|)
    decreases |events|
  {
    var all := events + [e];
    assert forall j :: 0 <= j < |events| ==> all[j] == events[j];
    assert all[|events|] == e;
    if events != [] {
      var rest := events[1..];
      assert AllMixable(rest) by { assert forall j :: 0 <= j < |events| - 1 ==> rest[j] == events[j + 1]; }
      assert all[1..] == rest + [e];
      var c' := NextCursor(c, DurationSamples(events[0].duration), BarSamples(m.bpm), |m.chords|);
      TrackAppend(c', rest, e, m);
    }
  }

  // ----- the whole mix -----

  /** The buffer after mixing `events` from cursor `c` on. */
  function MixFrom(s: seq<real>, c: Cursor, events: seq<Event>, m: Mood, instrument: string,
                   sin: real -> real, exp: real -> real): (r: seq<real>)
    requires Playable(m) && AllMixable(events) && c.chord < |m.chords|
    ensures |r| == |s|
    decreases |events|
  {
    if events == [] then s
    else
      var e := events[0];
      var mixed := MixEvent(s, c.pos, e, m.chords[c.chord], instrument, sin, exp);
      var c' := NextCursor(c, DurationSamples(e.duration), BarSamples(m.bpm), |m.chords|);
      assert AllMixable(events[1..]) by { assert forall j :: 0 <= j < |events| - 1 ==> events[1..][j] == events[j + 1]; }
      MixFrom(mixed, c', events[1..], m, instrument, sin, exp)
  }

  lemma AllMixableAppend(a: seq<Event>, b: seq<Event>)
    requires AllMixable(a) && AllMixable(b)
    ensures AllMixable(a + b)
  {
    assert forall j :: 0 <= j < |a + b| ==> (a + b)[j] == if j < |a| then a[j] else b[j - |a|];
  }

  /** Mixing a non-empty sequence mixes its first event at the cursor, then the rest from the next cursor. */
  lemma MixFromStep(s: seq<real>, c: Cursor, events: seq<Event>, m: Mood, instrument: string,
                    sin: real -> real, exp: real -> real)
    requires Playable(m) && AllMixable(events) && c.chord < |m.chords| && events != []
    ensures AllMixable(events[1..]) && Mixable(events[0])
    ensures var c' := NextCursor(c, DurationSamples(events[0].duration), BarSamples(m.bpm), |m.chords|);
            MixFrom(s, c, events, m, instrument, sin, exp)
            == MixFrom(MixEvent(s, c.pos, events[0], m.chords[c.chord], instrument, sin, exp), c', events[1..], m, instrument, sin, exp)
  {
    assert AllMixable(events[1..]) by { assert forall j :: 0 <= j < |events| - 1 ==> events[1..][j] == events[j + 1]; }
  }

  /** Mixing `a + b` mixes `a` first, then `b` from the cursor that `a` leaves behind. */
  lemma {:induction false} MixFromSplit(s: seq<real>, c: Cursor, a: seq<Event>, b: seq<Event>, m: Mood,
                                        instrument: string, sin: real -> real, exp: real -> real)
    requires Playable(m) && AllMixable(a) && AllMixable(b) && c.chord < |m.chords|
    ensures AllMixable(a + b)
    ensures MixFrom(s, c, a + b, m, instrument, sin, exp)
            == MixFrom(MixFrom(s, c, a, m, instrument, sin, exp), Track(c, a, m), b, m, instrument, sin, exp)
    decreases |a|
  {
    AllMixableAppend(a, b);
    if a != [] {
      var rest := a[1..];
      assert AllMixable(rest) by { assert forall j :: 0 <= j < |a| - 1 ==> rest[j] == a[j + 1]; }
      AllMixableAppend(rest, b);
      assert (a + b)[0] == a[0];
      assert (a + b)[1..] == rest + b;
      var mixed := MixEvent(s, c.pos, a[0], m.chords[c.chord], instrument, sin, exp);
      var c' := NextCursor(c, DurationSamples(a[0].duration), BarSamples(m.bpm), |m.chords|);
      assert MixFrom(s, c, a + b, m, instrument, sin, exp) == MixFrom(mixed, c', rest + b, m, instrument, sin, exp);
      assert MixFrom(s, c, a, m, instrument, sin, exp) == MixFrom(mixed, c', rest, m, instrument, sin, exp);
      assert Track(c, a, m) == Track(c', rest, m);
      MixFromSplit(mixed, c', rest, b, m, instrument, sin, exp);
    } else {
      assert a + b == b;
    }
  }

  /** The mixing loop of `generate_music`, updating the buffer in place. */
  method MixEvents(a: array<real>, events: seq<Event>, m: Mood, instrument: string, sin: real -> real, exp: real -> real)
    requires Playable(m) && AllMixable(events) && SumSamples(events) <= a.Length
    modifies a
    ensures a[..] == MixFrom(old(a[..]), Cursor(0, 0), events, m, instrument, sin, exp)
  {
    var bar := BarSamples(m.bpm);
    var currentPos: nat := 0;
    var chordIndex: nat := 0;
    for k := 0 to |events|
      invariant AllMixable(events[..k]) && Cursor(currentPos, chordIndex) == Track(Cursor(0, 0), events[..k], m)
      invariant AllMixable(events[k..])
      invariant currentPos + SumSamples(events[k..]) == SumSamples(events)
      invariant MixFrom(a[..], Cursor(currentPos, chordIndex), events[k..], m, instrument, sin, exp)
             == MixFrom(old(a[..]), Cursor(0, 0), events, m, instrument, sin, exp)
    {
      var item := events[k];
      assert events[k..][1..] == events[k + 1..];
      SumSamplesNonNegative(events[k + 1..]);
      var durationSamples := DurationSamples(item.duration);
      assert events[..k + 1] == events[..k] + [item];
      TrackAppend(Cursor(0, 0), events[..k], item, m);
      ghost var step := NextCursor(Cursor(currentPos, chordIndex), durationSamples, bar, |m.chords|);
      MixFromStep(a[..], Cursor(currentPos, chordIndex), events[k..], m, instrument, sin, exp);
      AddEventVoices(a, currentPos, item, m.chords[chordIndex], instrument, sin, exp);
      currentPos := currentPos + durationSamples;
      if currentPos % bar < durationSamples {
        chordIndex := (chordIndex + 1) % |m.chords|;
      }
      assert Cursor(currentPos, chordIndex) == step;
    }
  }

  /** The melody voice and the chord voices of one event, added into the buffer at the cursor. */
  method AddEventVoices(a: array<real>, pos: nat, item: Event, chord: Chord, instrument: string,
                        sin: real -> real, exp: real -> real)
    requires Mixable(item) && pos + DurationSamples(item.duration) <= a.Length
    modifies a
    ensures a[..] == MixEvent(old(a[..]), pos, item, chord, instrument, sin, exp)
  {
    if item.note != Rest {
      var freq := Notes[item.note];
      var melWave := CreateWaveform(freq, item.duration, SampleRate, instrument, sin, exp);
      AccumulateSlice(a, pos, melWave, MelodyGain);
    }
    AddChord(a, pos, chord, item.duration, sin, exp);
  }

  lemma {:induction false} SumSamplesNonNegative(events: seq<Event>)
    requires AllMixable(events)
    ensures 0 <= SumSamples(events)
  {
    if events != [] {
      assert AllMixable(events[1..]) by { assert forall j :: 0 <= j < |events| - 1 ==> events[1..][j] == events[j + 1]; }
      SumSamplesNonNegative(events[1..]);
      assert Mixable(events[0]);
    }
  }

  // ----- normalization and quantization -----

  /** `np.max(np.abs(buffer))`: the largest magnitude, attained by some sample. */
  function PeakAbs(s: seq<real>): (peak: real)
    requires 0 < |s|
    ensures 0.0 <= peak
    ensures forall i :: 0 <= i < |s| ==> -peak <= s[i] <= peak
    ensures exists i :: 0 <= i < |s| && Abs(s[i]) == peak
    decreases |s|
  {
    if |s| == 1 then Abs(s[0])
    else
      var rest := PeakAbs(s[1..]);
      assert forall i :: 1 <= i < |s| ==> s[i] == s[1..][i - 1];
      if Abs(s[0]) >= rest then Abs(s[0]) else rest
  }

  /** Division by the peak when it is positive; a silent buffer is left as it is. */
  function Normalize(s: seq<real>): (r: seq<real>)
    requires 0 < |s|
    ensures |r| == |s|
    ensures forall i :: 0 <= i < |r| ==> -1.0 <= r[i] <= 1.0
    ensures PeakAbs(s) == 0.0 ==> r == s && forall i :: 0 <= i < |r| ==> r[i] == 0.0
    ensures 0.0 < PeakAbs(s) ==> exists i :: 0 <= i < |r| && Abs(r[i]) == 1.0
    ensures 0.0 < PeakAbs(s) ==> r == Divided(s, PeakAbs(s))
  {
    var peak := PeakAbs(s);
    if 0.0 < peak then
      DividedByPeak(s, peak);
      Divided(s, peak)
    else
      assert peak == 0.0 && forall i :: 0 <= i < |s| ==> s[i] == 0.0;
      s
  }

  /** `buffer / max_amp`: samplewise division, which keeps the length and, for a positive divisor, every sign. */
  function Divided(s: seq<real>, peak: real): (r: seq<real>)
    requires peak != 0.0
    ensures |r| == |s|
    ensures 0.0 < peak ==> forall i :: 0 <= i < |s| ==> (r[i] < 0.0 <==> s[i] < 0.0) && (r[i] == 0.0 <==> s[i] == 0.0)
  {
    seq(|s|, i requires 0 <= i < |s| => s[i] / peak)
  }

  /** Dividing by the peak lands every sample in [-1, 1], hits magnitude one somewhere, and loses nothing. */
  lemma DividedByPeak(s: seq<real>, peak: real)
    requires 0 < |s| && peak == PeakAbs(s) && 0.0 < peak
    ensures forall i :: 0 <= i < |s| ==> -1.0 <= Divided(s, peak)[i] <= 1.0 && Divided(s, peak)[i] * peak == s[i]
    ensures exists i :: 0 <= i < |s| && Abs(Divided(s, peak)[i]) == 1.0
  {
    forall i | 0 <= i < |s|
      ensures -1.0 <= Divided(s, peak)[i] <= 1.0 && Divided(s, peak)[i] * peak == s[i]
    {
      DividedAt(s, peak, i);
    }
    var k :| 0 <= k < |s| && Abs(s[k]) == peak;
    DivByOwnMagnitude(s[k], peak);
    assert Abs(Divided(s, peak)[k]) == 1.0;
  }

  lemma DividedAt(s: seq<real>, peak: real, i: nat)
    requires 0.0 < peak && i < |s| && -peak <= s[i] <= peak
    ensures -1.0 <= Divided(s, peak)[i] <= 1.0 && Divided(s, peak)[i] * peak == s[i]
  {
    var x := s[i];
    assert Divided(s, peak)[i] == x / peak;
    DivByBound(x, peak);
    DivMulCancel(x, peak);
  }

  /** `(x * 32767).astype(np.int16)` of one sample: truncation, then the low 16 bits in two's complement. */
  function ToInt16(x: real): (v: int)
    ensures -32768 <= v <= 32767
    ensures -32768 <= Trunc(x) <= 32767 ==> v == Trunc(x)
  {
    (Trunc(x) + 32768) % 65536 - 32768
  }

  /** Scaling to 16-bit range; samples of magnitude at most 1 land in [-32767, 32767] without wrapping. */
  function Quantize(s: seq<real>): (q: seq<int>)
    ensures |q| == |s|
    ensures forall i :: 0 <= i < |q| ==> -32768 <= q[i] <= 32767
    ensures (forall i :: 0 <= i < |s| ==> -1.0 <= s[i] <= 1.0) ==>
              forall i :: 0 <= i < |q| ==> -32767 <= q[i] <= 32767 && q[i] == Trunc(s[i] * 32767.0)
  {
    seq(|s|, i requires 0 <= i < |s| => ToInt16(s[i] * 32767.0))
  }

  /** A silent buffer quantizes to silence; a buffer whose peak is 1 quantizes to a sample at full scale. */
  lemma QuantizeFullScale(s: seq<real>)
    requires forall i :: 0 <= i < |s| ==> -1.0 <= s[i] <= 1.0
    requires (forall i :: 0 <= i < |s| ==> s[i] == 0.0) || exists i :: 0 <= i < |s| && Abs(s[i]) == 1.0
    ensures var q := Quantize(s);
            (forall i :: 0 <= i < |q| ==> q[i] == 0) || exists i :: 0 <= i < |q| && (q[i] == 32767 || q[i] == -32767)
  {
    var q := Quantize(s);
    if k :| 0 <= k < |s| && Abs(s[k]) == 1.0 {
      assert q[k] == Trunc(s[k] * 32767.0);
    } else {
      assert forall i :: 0 <= i < |q| ==> q[i] == Trunc(s[i] * 32767.0);
    }
  }

  // ----- properties of the mix -----

  lemma {:induction false} SumNonNegative(events: seq<Event>)
    requires AllMixable(events)
    ensures 0.0 <= Sum(events)
  {
    if events != [] {
      assert AllMixable(events[1..]) by { assert forall j :: 0 <= j < |events| - 1 ==> events[1..][j] == events[j + 1]; }
      SumNonNegative(events[1..]);
      assert Mixable(events[0]);
    }
  }

  /** A sum of truncations is at most the truncation of the sum: the cursor steps fit the buffer. */
  lemma {:induction false} SumSamplesBound(events: seq<Event>)
    requires AllMixable(events)
    ensures SumSamples(events) <= Trunc(SampleRate as real * Sum(events))
  {
    if events != [] {
      var d := events[0].duration;
      var rest := events[1..];
      assert AllMixable(rest) by { assert forall j :: 0 <= j < |events| - 1 ==> rest[j] == events[j + 1]; }
      assert Mixable(events[0]);
      SumSamplesBound(rest);
      SumNonNegative(rest);
      TruncAddLe(d * SampleRate as real, SampleRate as real * Sum(rest));
      assert d * SampleRate as real + SampleRate as real * Sum(rest) == SampleRate as real * Sum(events);
    }
  }

  /** A chord voice leaves every sample outside `[pos, pos + DurationSamples(duration))` alone. */
  lemma {:induction false} ChordVoicesUntouched(s: seq<real>, pos: nat, notes: Chord, duration: real,
                                                sin: real -> real, exp: real -> real, i: nat)
    requires 0.0 <= duration && i < |s| && (i < pos || pos + DurationSamples(duration) <= i)
    ensures ChordVoices(s, pos, notes, duration, sin, exp)[i] == s[i]
    decreases |notes|
  {
    if notes != [] {
      var voiced := if notes[0] in Notes
        then AddScaled(s, pos, CreateWaveform(Notes[notes[0]], duration, SampleRate, "organ", sin, exp), ChordGain)
        else s;
      if notes[0] in Notes {
        var wave := CreateWaveform(Notes[notes[0]], duration, SampleRate, "organ", sin, exp);
        WaveMatchesStep(Notes[notes[0]], duration, "organ", sin, exp);
        AddScaledOutside(s, pos, wave, ChordGain, i);
      }
      ChordVoicesUntouched(voiced, pos, notes[1..], duration, sin, exp, i);
    }
  }

  /** The slice update leaves the samples outside its window unchanged. */
  lemma AddScaledOutside(s: seq<real>, start: nat, wave: seq<real>, gain: real, i: nat)
    requires i < |s| && (i < start || start + |wave| <= i)
    ensures AddScaled(s, start, wave, gain)[i] == s[i]
  {
  }

  /** A note's waveform is exactly as long as the cursor step of its event. */
  lemma WaveMatchesStep(frequency: real, duration: real, instrument: string, sin: real -> real, exp: real -> real)
    requires 0.0 <= duration
    ensures |CreateWaveform(frequency, duration, SampleRate, instrument, sin, exp)| == DurationSamples(duration)
  {
    assert SampleRate as real * duration == duration * SampleRate as real;
  }

  /** Mixing one event writes only inside that event's window of samples. */
  lemma MixEventUntouched(s: seq<real>, pos: nat, e: Event, chord: Chord, instrument: string,
                          sin: real -> real, exp: real -> real, i: nat)
    requires Mixable(e) && i < |s| && (i < pos || pos + DurationSamples(e.duration) <= i)
    ensures MixEvent(s, pos, e, chord, instrument, sin, exp)[i] == s[i]
  {
    var withMelody := if e.note != Rest
      then AddScaled(s, pos, CreateWaveform(Notes[e.note], e.duration, SampleRate, instrument, sin, exp), MelodyGain)
      else s;
    if e.note != Rest {
      var wave := CreateWaveform(Notes[e.note], e.duration, SampleRate, instrument, sin, exp);
      WaveMatchesStep(Notes[e.note], e.duration, instrument, sin, exp);
      AddScaledOutside(s, pos, wave, MelodyGain, i);
    }
    ChordVoicesUntouched(withMelody, pos, chord, e.duration, sin, exp, i);
  }

  /** Mixing events from cursor `c` writes only between `c.pos` and the final cursor position. */
  lemma {:induction false} MixFromUntouched(s: seq<real>, c: Cursor, events: seq<Event>, m: Mood, instrument: string,
                                            sin: real -> real, exp: real -> real, i: nat)
    requires Playable(m) && AllMixable(events) && c.chord < |m.chords| && i < |s|
    requires i < c.pos || c.pos + SumSamples(events) <= i
    ensures MixFrom(s, c, events, m, instrument, sin, exp)[i] == s[i]
    decreases |events|
  {
    if events != [] {
      var e := events[0];
      var rest := events[1..];
      assert AllMixable(rest) by { assert forall j :: 0 <= j < |events| - 1 ==> rest[j] == events[j + 1]; }
      assert Mixable(e);
      SumSamplesNonNegative(rest);
      var mixed := MixEvent(s, c.pos, e, m.chords[c.chord], instrument, sin, exp);
      var c' := NextCursor(c, DurationSamples(e.duration), BarSamples(m.bpm), |m.chords|);
      MixEventUntouched(s, c.pos, e, m.chords[c.chord], instrument, sin, exp, i);
      MixFromUntouched(mixed, c', rest, m, instrument, sin, exp, i);
    }
  }

  /**
   * For an event no longer than a bar, the bar-boundary rule advances the
   * chord exactly when the cursor moves into a new bar (the bar number
   * `pos / bar` of the new position exceeds that of the old one).
   */
  lemma ChordAdvancesAtBarLine(c: Cursor, ds: nat, bar: int, chords: nat)
    requires 0 < bar && 0 < chords && ds <= bar
    ensures NextCursor(c, ds, bar, chords).chord ==
              if c.pos / bar < (c.pos + ds) / bar then (c.chord + 1) % chords else c.chord
  {
    var p := c.pos + ds;
    var q, r := p / bar, p % bar;
    assert p == q * bar + r;
    if r >= ds {
      DivUnique(c.pos, bar, q, r - ds);
    } else {
      assert c.pos == (q - 1) * bar + (bar + r - ds);
      DivUnique(c.pos, bar, q - 1, bar + r - ds);
    }
  }

  /** Stepping one past `a` commutes with reduction modulo `n`. */
  lemma ModSucc(a: nat, n: nat)
    requires 0 < n
    ensures (a % n + 1) % n == (a + 1) % n
  {
    var q, r := a / n, a % n;
    assert a == q * n + r;
    if r + 1 < n {
      DivUnique(a + 1, n, q, r + 1);
      DivUnique(r + 1, n, 0, r + 1);
    } else {
      assert a + 1 == (q + 1) * n + 0;
      DivUnique(a + 1, n, q + 1, 0);
      DivUnique(r + 1, n, 1, 0);
    }
  }

  /** After k one-beat events, the cursor is on beat k of a bar of four beats. */
  lemma OneBeatStep(k: nat, beat: nat, chords: nat)
    requires 0 < beat && 0 < chords
    ensures NextCursor(Cursor(k * beat, (k / 4) % chords), beat, 4 * beat, chords)
            == Cursor((k + 1) * beat, ((k + 1) / 4) % chords)
  {
    var p := k * beat + beat;
    assert p == (k + 1) * beat;
    var r := (k + 1) % 4;
    assert (k + 1) == ((k + 1) / 4) * 4 + r;
    assert p == ((k + 1) / 4) * (4 * beat) + r * beat;
    assert r * beat < 4 * beat && 0 <= r * beat by {
      assert r <= 3;
      assert r * beat <= 3 * beat;
    }
    DivUnique(p, 4 * beat, (k + 1) / 4, r * beat);
    if r == 0 {
      assert (k + 1) / 4 == k / 4 + 1;
      ModSucc(k / 4, chords);
    } else {
      assert r * beat >= beat by { MulAtLeast(r, beat); }
      assert (k + 1) / 4 == k / 4;
    }
  }

  /**
   * With every event one beat long and a bar of four beats, the chord index
   * steps once every fourth event: after k events it is (k / 4) mod the
   * number of chords.
   */
  lemma {:induction false} OneBeatEventsChangeChordEveryBar(m: Mood, events: seq<Event>, beat: nat, k: nat)
    requires Playable(m) && AllMixable(events) && 0 < beat && BarSamples(m.bpm) == 4 * beat
    requires forall j :: 0 <= j < |events| ==> DurationSamples(events[j].duration) == beat
    ensures Track(Cursor(k * beat, (k / 4) % |m.chords|), events, m)
            == Cursor((k + |events|) * beat, ((k + |events|) / 4) % |m.chords|)
    decreases |events|
  {
    if events != [] {
      var rest := events[1..];
      assert AllMixable(rest) by { assert forall j :: 0 <= j < |events| - 1 ==> rest[j] == events[j + 1]; }
      assert forall j :: 0 <= j < |rest| ==> DurationSamples(rest[j].duration) == beat by {
        assert forall j :: 0 <= j < |events| - 1 ==> rest[j] == events[j + 1];
      }
      OneBeatStep(k, beat, |m.chords|);
      OneBeatEventsChangeChordEveryBar(m, rest, beat, k + 1);
      assert k + 1 + |rest| == k + |events|;
    }
  }

  /** In the happy mood (120 bpm) a quarter note is 22050 samples and a bar exactly four of them. */
  lemma HappyBarIsFourQuarterNotes()
    ensures DurationSamples(QuarterNote(Moods["happy"].bpm)) == 22050
    ensures BarSamples(Moods["happy"].bpm) == 4 * 22050
  {
  }

  /**
   * A catalog melody of quarter notes only changes chord every fourth note:
   * after k notes the chord index is (k / 4) mod the number of chords.
   */
  lemma QuarterNotesChangeChordEveryBar(key: string, events: seq<Event>)
    requires key in Moods && AllMixable(events)
    requires forall j :: 0 <= j < |events| ==> events[j].duration == QuarterNote(Moods[key].bpm)
    ensures var m := Moods[key];
            var beat := DurationSamples(QuarterNote(m.bpm));
            && Playable(m)
            && Track(Cursor(0, 0), events, m) == Cursor(|events| * beat, (|events| / 4) % |m.chords|)
  {
    var m := Moods[key];
    CatalogMoodsPlayable(key);
    CatalogBarIsFourQuarterNotes(key);
    QuarterNoteTrack(m, events);
  }

  lemma QuarterNoteTrack(m: Mood, events: seq<Event>)
    requires Playable(m) && AllMixable(events)
    requires 0 < DurationSamples(QuarterNote(m.bpm)) && BarSamples(m.bpm) == 4 * DurationSamples(QuarterNote(m.bpm))
    requires forall j :: 0 <= j < |events| ==> events[j].duration == QuarterNote(m.bpm)
    ensures var beat := DurationSamples(QuarterNote(m.bpm));
            Track(Cursor(0, 0), events, m) == Cursor(|events| * beat, (|events| / 4) % |m.chords|)
  {
    OneBeatEventsFromStart(m, events, DurationSamples(QuarterNote(m.bpm)));
  }

  lemma OneBeatEventsFromStart(m: Mood, events: seq<Event>, beat: nat)
    requires Playable(m) && AllMixable(events) && 0 < beat && BarSamples(m.bpm) == 4 * beat
    requires forall j :: 0 <= j < |events| ==> DurationSamples(events[j].duration) == beat
    ensures Track(Cursor(0, 0), events, m) == Cursor(|events| * beat, (|events| / 4) % |m.chords|)
  {
    DivUnique(0, |m.chords|, 0, 0);
    assert Cursor(0 * beat, (0 / 4) % |m.chords|) == Cursor(0, 0);
    OneBeatEventsChangeChordEveryBar(m, events, beat, 0);
    assert 0 + |events| == |events|;
  }

  /** In every catalog mood a bar is exactly four quarter notes of samples, so one-beat events meet four to a bar. */
  lemma CatalogBarIsFourQuarterNotes(key: string)
    requires key in Moods
    ensures 0 < DurationSamples(QuarterNote(Moods[key].bpm))
    ensures BarSamples(Moods[key].bpm) == 4 * DurationSamples(QuarterNote(Moods[key].bpm))
  {
    var bpm := Moods[key].bpm;
    assert bpm == 120 || bpm == 75 || bpm == 60;
    TempoBarIsFourBeats(bpm);
  }

  /** The three catalog tempos give whole-sample beats: 22050, 35280 and 44100 samples. */
  lemma TempoBarIsFourBeats(bpm: int)
    requires bpm == 120 || bpm == 75 || bpm == 60
    ensures 0 < DurationSamples(QuarterNote(bpm))
    ensures BarSamples(bpm) == 4 * DurationSamples(QuarterNote(bpm))
  {
    var q, beat := QuarterNote(bpm), 0;
    if bpm == 120 {
      assert q == 0.5;
      beat := 22050;
    } else if bpm == 75 {
      assert q == 0.8;
      beat := 35280;
    } else {
      assert q == 1.0;
      beat := 44100;
    }
    assert q * SampleRate as real == beat as real;
    assert (q * 4.0) * SampleRate as real == (4 * beat) as real;
  }

  /** A dotted quarter note or less takes no more samples than a bar. */
  lemma EventFitsInBar(bpm: int, d: real)
    requires 0 < bpm && 0.0 <= d <= 1.5 * QuarterNote(bpm)
    ensures 0 <= DurationSamples(d) <= BarSamples(bpm)
  {
    TruncMonotone(d * SampleRate as real, (QuarterNote(bpm) * 4.0) * SampleRate as real);
  }

  /** The events of a planned melody can all be mixed. */
  lemma PlannedEventsMixable(m: Mood, total: real, draws: nat -> nat)
    requires Playable(m)
    ensures AllMixable(Plan(m, total, draws))
  {
    var p := Plan(m, total, draws);
    PlanEventsWellFormed(m, total, draws);
    forall j | 0 <= j < |p|
      ensures Mixable(p[j])
    {
      assert p[j] in p;
    }
  }

  /**
   * In a planned melody every cursor step is within a bar, so the chord
   * changes exactly at the events during which the cursor enters a new bar.
   */
  lemma PlannedChordChangesAtBarLines(m: Mood, total: real, draws: nat -> nat, c: Cursor, j: nat)
    requires Playable(m) && j < |Plan(m, total, draws)|
    ensures var ds := DurationSamples(Plan(m, total, draws)[j].duration);
            var bar := BarSamples(m.bpm);
            && 0 <= ds <= bar
            && NextCursor(c, ds, bar, |m.chords|).chord ==
                 if c.pos / bar < (c.pos + ds) / bar then (c.chord + 1) % |m.chords| else c.chord
  {
    var e := Plan(m, total, draws)[j];
    PlanEventsWellFormed(m, total, draws);
    assert e in Plan(m, total, draws);
    EventFitsInBar(m.bpm, e.duration);
    ChordAdvancesAtBarLine(c, DurationSamples(e.duration), BarSamples(m.bpm), |m.chords|);
  }

  /** A planned melody never runs the cursor past the buffer of `int(sample_rate * total)` samples. */
  lemma PlannedSamplesFit(m: Mood, total: real, draws: nat -> nat)
    requires Playable(m)
    ensures 0 <= SumSamples(Plan(m, total, draws))
    ensures total <= 0.0 ==> SumSamples(Plan(m, total, draws)) == 0
    ensures 0.0 < total ==> SumSamples(Plan(m, total, draws)) <= TrackLength(total)
  {
    var p := Plan(m, total, draws);
    PlannedEventsMixable(m, total, draws);
    PlanCoversTotal(m, total, draws);
    SumSamplesNonNegative(p);
    SumSamplesBound(p);
  }

  // ----- the whole generation -----

  /** `int(sample_rate * total_duration_seconds)`, the length of the track buffer. */
  function TrackLength(total: real): (n: int)
    ensures 0.0 <= total ==> 0 <= n && n as real <= SampleRate as real * total < n as real + 1.0
    ensures total < 0.0 ==> n <= 0
    ensures 0 < n ==> 0.0 < total
  {
    Trunc(SampleRate as real * total)
  }

  /** `np.zeros(n)`. */
  function Zeros(n: nat): (z: seq<real>)
    ensures |z| == n && forall i :: 0 <= i < n ==> z[i] == 0.0
  {
    seq(n, i requires 0 <= i < n => 0.0)
  }

  /**
   * The samples handed to the file sink: the planned melody mixed into a
   * silent buffer, normalized and quantized; one per buffer sample, all
   * within [-32767, 32767].
   */
  function Render(m: Mood, instrument: string, total: real, draws: nat -> nat,
                  sin: real -> real, exp: real -> real): (q: seq<int>)
    requires Playable(m) && 0 < TrackLength(total)
    ensures |q| == TrackLength(total)
    ensures forall i :: 0 <= i < |q| ==> -32767 <= q[i] <= 32767
    ensures (forall i :: 0 <= i < |q| ==> q[i] == 0) || exists i :: 0 <= i < |q| && (q[i] == 32767 || q[i] == -32767)
  {
    var melody := Plan(m, total, draws);
    PlannedEventsMixable(m, total, draws);
    var normalized := Normalize(MixFrom(Zeros(TrackLength(total)), Cursor(0, 0), melody, m, instrument, sin, exp));
    QuantizeFullScale(normalized);
    Quantize(normalized)
  }

  /** Why a generation request produced no samples. */
  datatype Failure =
    | UnknownMood     // `MOODS[mood_key]` raises KeyError
    | NegativeLength  // `np.zeros` of a negative length raises ValueError
    | EmptyTrack      // `np.max` of an empty buffer raises ValueError

  datatype Outcome = Samples(values: seq<int>) | Failed(reason: Failure)

  /**
   * `generate_music` up to the file sink: look up the mood, plan the melody,
   * mix it into a zero-filled buffer, normalize and quantize.
   */
  method GenerateMusic(moodKey: string, instrument: string, total: real, draws: nat -> nat,
                       sin: real -> real, exp: real -> real) returns (r: Outcome)
    ensures r == Failed(UnknownMood) <==> moodKey !in Moods
    ensures moodKey in Moods && TrackLength(total) < 0 ==> r == Failed(NegativeLength)
    ensures moodKey in Moods && TrackLength(total) == 0 ==> r == Failed(EmptyTrack)
    ensures moodKey in Moods && 0 < TrackLength(total) ==>
              Playable(Moods[moodKey]) && r == Samples(Render(Moods[moodKey], instrument, total, draws, sin, exp))
    ensures r.Samples? ==> |r.values| == TrackLength(total) && forall i :: 0 <= i < |r.values| ==> -32767 <= r.values[i] <= 32767
  {
    if moodKey !in Moods {
      return Failed(UnknownMood);
    }
    var mood := Moods[moodKey];
    CatalogMoodsPlayable(moodKey);
    var melody := PlanMelody(mood, total, draws);
    var n := TrackLength(total);
    if n < 0 {
      return Failed(NegativeLength);
    }
    var track := new real[n](_ => 0.0);
    assert track[..] == Zeros(n);
    PlannedEventsMixable(mood, total, draws);
    PlannedSamplesFit(mood, total, draws);
    MixEvents(track, melody, mood, instrument, sin, exp);
    if n == 0 {
      return Failed(EmptyTrack);
    }
    var normalized := Normalize(track[..]);
    r := Samples(Quantize(normalized));
  }
}
