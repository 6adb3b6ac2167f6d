# AI music generator — a verified model of the composition pipeline

The generator (`main.py`) composes a short piece for a chosen mood and instrument.
It works in four stages:

- **Tone library and mood catalog.** Note names map to frequencies. Each of the three moods has a scale, a chord progression and a tempo.
- **Melody planner.** It draws (note, duration) events at random until they cover the requested length. The last duration is clipped so that the events end exactly on the total.
- **Waveform synthesizer.** It turns one note into samples: an instrument recipe of sine partials, or a square wave, multiplied by a decaying exponential envelope.
- **Track mixer.** It adds every event into a zero-filled buffer: the melody voice at gain 0.45, then the current chord's organ voices at gain 0.20. The sample cursor moves forward by each event's length. The chord index steps on when the cursor crosses a bar line. Finally the buffer is peak-normalized and scaled to 16-bit integers.

The project has five modules:

- `Numeric` (`numeric.dfy`): Python's `int()` on floats, which truncates toward zero, plus the arithmetic facts the proofs need.
- `Catalog` (`catalog.dfy`): the `NOTES` and `MOODS` tables, copied exactly.
- `Waveform` (`waveform.dfy`): `create_waveform`.
- `Melody` (`melody.dfy`): the planning loop, as a pure specification `Plan` and as the imperative `PlanMelody`.
- `Mixer` (`mixer.dfy`): the mixing loop over an `array<real>` buffer, proved against the pure `MixFrom`, followed by normalization, quantization and the whole of `generate_music` up to the file write.

Time and sample values are exact `real`s. The sine and exponential functions are parameters (`sin`, `exp`). Where a property depends on `exp`, it assumes `ExpAxioms`: exp(0) = 1, and exp is monotone. `Waveform.EnvelopeAttenuates` also assumes exp(-5) >= 0.

Python's `random.choice` is replaced by an injected sequence of draws, `draws: nat -> nat`. Call number k returns `xs[draws(k) % |xs|]`. Loop iteration i of the planner uses draw 2i for the rhythm and draw 2i+1 for the note, in the order `main.py` makes the calls.

Where the documented behaviour of the program and the code of `main.py` disagree, the model follows the code:

- The buffer and note lengths are `int(rate * duration)`, which truncates. They are not rounded.
- A request whose buffer length is 0 fails. `np.max` of an empty array raises, so no empty file is written (`Failure.EmptyTrack`).
- A request whose buffer length is negative fails. `np.zeros` raises (`Failure.NegativeLength`).
- The written range of the int16 samples is [-32767, 32767], not [-32768, 32767].

## Model

| member | source | states |
|---|---|---|
| `Catalog.CatalogScalesResolve` | main.py:18-34 | Every scale note of every mood is a key of the tone library, so the direct melody lookup never raises |
| `Catalog.RestHasNoFrequency` | main.py:15 | The rest sentinel is not a note name of the tone library |
| `Catalog.SadProgressionHasUnresolvableNote` | main.py:26 | The sad progression's third chord names Ab3, which the tone library lacks, so the chord loop's membership test skips it |
| `Catalog.CatalogMoodsWellFormed` | main.py:18-34 | Every mood has a positive tempo and a non-empty chord progression |
| `Numeric.Trunc` | main.py:88 | Python's `int()` truncates toward zero: for x >= 0 the result is the largest integer not above x, for x < 0 the smallest integer not below x |
| `Waveform.RecipeFor` | main.py:41-55 | Each of the names piano, organ and retro_synth selects its own recipe, in both directions; every other name selects the two-partial default |
| `Waveform.Sign` | main.py:53 | The sign is -1, 0 or 1, multiplying by it gives the magnitude, and it is 0 exactly at 0 |
| `Waveform.Partial` | main.py:43 | A sine partial at time 0 is at phase 0, whatever its frequency |
| `Waveform.RawSample` | main.py:41-55 | A square-wave sample is -1, 0 or 1; at time 0 (where sin(0) = 0) every recipe is silent |
| `Waveform.DefaultIsPianoWithoutThirdHarmonic` | main.py:41-55 | The default recipe is the piano recipe minus its third harmonic at weight 0.1 |
| `Waveform.SampleCount` | main.py:38 | For a non-negative duration, the sample count is the number of whole samples that fit: n <= rate * duration < n + 1 |
| `Waveform.TimePoint` | main.py:38 | The time points start at 0 and, with endpoint=False, stay within [0, duration) for a positive duration |
| `Waveform.RawWave` | main.py:38-55 | One raw sample per time point; a retro-synth note only takes the values -1, 0 and 1 |
| `Waveform.CreateWaveform` | main.py:36-59 | A note has exactly int(sample_rate * duration) samples |
| `Waveform.WaveformAt` | main.py:58-59 | Sample i of a note is raw sample i times envelope value i |
| `Waveform.DecayExponent` | main.py:58 | Every decay exponent lies in [-5, 0], and the first is 0 |
| `Waveform.Envelope` | main.py:58 | One envelope value per sample; the first is exp(0) and, with two or more samples, the last is exp(-5) |
| `Waveform.DecayExponentShape` | main.py:58 | The decay exponents start at 0, end at -5, and never increase |
| `Waveform.EnvelopeBounds` | main.py:58 | Each envelope value lies between exp(-5) and 1 |
| `Waveform.EnvelopeShape` | main.py:58 | The envelope has one value per sample, starts at 1, ends at exp(-5), never increases, and stays within [exp(-5), 1] |
| `Waveform.RetroSynthIsSignedEnvelope` | main.py:51-59 | Every retro-synth sample is the envelope value, its negation, or 0 |
| `Waveform.EnvelopeAttenuates` | main.py:57-59 | For every instrument, no shaped sample is larger in magnitude than its raw sample |
| `Melody.QuarterNote` | main.py:68 | A quarter note lasts a positive time |
| `Melody.Rhythms` | main.py:69 | Exactly three candidate durations, each between an eighth and a dotted quarter note |
| `Melody.Choice` | main.py:74 | A random choice is always an element of the list it chooses from |
| `Melody.Palette` | main.py:64 | The melody palette is the scale in order followed by the rest sentinel, and holds nothing else |
| `Melody.DrawnRhythmBounds` | main.py:74 | Whatever the draw, the chosen rhythm is between an eighth and a dotted quarter note |
| `Melody.SlotsDecrease` | main.py:73-79 | Every iteration, clipped or not, lowers a natural-number measure, so the planning loop terminates |
| `Melody.PlanFrom` | main.py:73-79 | The planner emits no event exactly when no time remains |
| `Melody.PlanFromStep` | main.py:74-79 | One iteration emits the drawn note for the drawn rhythm, clipped to the remaining time, and continues from the advanced time with the next two draws |
| `Melody.Plan` | main.py:71-79 | A melody is empty exactly when the requested total is not positive |
| `Melody.PlanMelody` | main.py:71-79 | The imperative planning loop produces exactly the specified plan for the given draws |
| `Melody.PlanFromCovers` | main.py:73-79 | The durations planned from any elapsed time add up exactly to the time remaining, or to 0 once none remains |
| `Melody.PlanFromEventAt` | main.py:74-78 | Event j takes its note from draw 2j+1 and its duration from draw 2j; its duration is positive, at most the drawn rhythm, and equal to it unless it is the clipped last event |
| `Melody.PlanCoversTotal` | main.py:71-79 | A positive total is covered exactly by the plan's durations; a non-positive total gives no events |
| `Melody.PlanEventsWellFormed` | main.py:64-79 | Every planned event plays a scale note or a rest, for a positive duration of at most a dotted quarter note |
| `Mixer.CatalogMoodsPlayable` | main.py:97-106 | Every catalog mood has a valid chord index, a positive bar length in samples, and resolvable scale notes |
| `Mixer.DurationSamples` | main.py:88 | For a non-negative duration, the cursor step is the number of whole samples in it |
| `Mixer.BarSamples` | main.py:106 | The bar length is the number of whole samples in four quarter notes |
| `Mixer.TrackLength` | main.py:83 | The buffer length is the number of whole samples in the total; a negative total gives a non-positive length, and a positive length implies a positive total |
| `Mixer.AddScaled` | main.py:94 | A slice update keeps the buffer length |
| `Mixer.AccumulateSlice` | main.py:94 | The in-place slice `+=` adds the scaled wave inside its window and leaves every other sample alone |
| `Mixer.ChordVoices` | main.py:98-103 | Voicing a chord keeps the buffer length |
| `Mixer.MixEvent` | main.py:90-103 | Mixing one event keeps the buffer length |
| `Mixer.AddChord` | main.py:97-103 | The chord loop adds an organ voice for each resolvable chord note, in order, and skips the others |
| `Mixer.AddEventVoices` | main.py:90-103 | One iteration adds the melody voice unless the event rests, then the chord voices, all at the cursor |
| `Mixer.NextCursor` | main.py:105-107 | The cursor moves forward by the event's sample count, and the chord index stays within the progression |
| `Mixer.Track` | main.py:85-107 | After any events, the cursor equals the sum of their sample counts, and the chord index is within the progression |
| `Mixer.TrackAppend` | main.py:105-107 | Tracking one more event is one more cursor step from where the others left the cursor |
| `Mixer.MixFrom` | main.py:85-107 | Mixing keeps the buffer length |
| `Mixer.MixFromStep` | main.py:87-107 | Mixing a non-empty sequence mixes its first event at the cursor, then the rest from the next cursor |
| `Mixer.MixFromSplit` | main.py:85-107 | Mixing a + b is mixing a, then mixing b from the cursor that tracking a reaches: event k is mixed at the cursor and chord tracked over the first k events |
| `Mixer.MixEvents` | main.py:83-107 | The in-place mixing loop leaves the buffer equal to the specified mix of all events from cursor 0 and chord 0; its loop invariant keeps the loop's cursor and chord index equal to `Track` of the events so far |
| `Mixer.SumSamplesNonNegative` | main.py:88 | The cursor never moves backwards |
| `Mixer.PeakAbs` | main.py:110 | The peak is non-negative, bounds every sample's magnitude, and is attained by some sample |
| `Mixer.Normalize` | main.py:110-112 | Normalized samples lie in [-1, 1]. A silent buffer is unchanged. Otherwise some sample has magnitude exactly 1 and every sample is divided by the peak |
| `Mixer.Divided` | main.py:112 | Division by a positive peak keeps the length, the sign and the zeros of every sample |
| `Mixer.DividedByPeak` | main.py:112 | Dividing by the peak puts every sample in [-1, 1], loses nothing (multiplying back gives the original), and yields magnitude 1 somewhere |
| `Mixer.ToInt16` | main.py:114 | The int16 cast yields a value in [-32768, 32767], and equals the truncation when that is in range |
| `Mixer.Quantize` | main.py:114 | One integer per sample; samples in [-1, 1] become truncations of x * 32767 in [-32767, 32767], with no wrap-around |
| `Mixer.QuantizeFullScale` | main.py:110-114 | A silent buffer quantizes to all zeros; a buffer with peak 1 has a sample at +32767 or -32767 |
| `Mixer.SumSamplesBound` | main.py:83-88 | The sum of the events' truncated sample counts is at most the truncated sample count of their total duration |
| `Mixer.ChordVoicesUntouched` | main.py:98-103 | Chord voices change no sample outside the event's window |
| `Mixer.AddScaledOutside` | main.py:94 | A slice update changes no sample outside its window |
| `Mixer.WaveMatchesStep` | main.py:88-93 | A note's waveform is exactly as long as its event's cursor step, so every slice shape matches |
| `Mixer.MixEventUntouched` | main.py:90-105 | Mixing one event writes only inside [cursor, cursor + sample count) |
| `Mixer.MixFromUntouched` | main.py:85-107 | Mixing a sequence of events writes only between the start cursor and the start cursor plus the sum of their sample counts |
| `Mixer.ChordAdvancesAtBarLine` | main.py:105-107 | For a step no longer than a bar, the chord index advances exactly when the cursor enters a new bar |
| `Mixer.OneBeatStep` | main.py:105-107 | One one-beat step after k beats lands on beat k+1, with chord index (k+1)/4 mod the number of chords |
| `Mixer.OneBeatEventsChangeChordEveryBar` | main.py:85-107 | With one-beat events and four-beat bars, the chord index after k events is (k / 4) mod the number of chords |
| `Mixer.OneBeatEventsFromStart` | main.py:85-107 | From cursor 0 and chord 0, k one-beat events in four-beat bars end at beat k with chord index (k / 4) mod the number of chords |
| `Mixer.QuarterNoteTrack` | main.py:68-107 | For a mood whose bar is four whole-sample quarter notes, a melody of quarter notes changes chord every fourth note |
| `Mixer.QuarterNotesChangeChordEveryBar` | main.py:18-107 | In every catalog mood, a melody of quarter notes changes chord every fourth note: after k notes the chord index is (k / 4) mod the number of chords |
| `Mixer.HappyBarIsFourQuarterNotes` | main.py:19-23 | At 120 bpm a quarter note is 22050 samples, and a bar is exactly four of them |
| `Mixer.TempoBarIsFourBeats` | main.py:68-106 | At 120, 75 and 60 bpm a quarter note is a positive whole number of samples, and a bar is exactly four of them |
| `Mixer.CatalogBarIsFourQuarterNotes` | main.py:18-34 | In every catalog mood a bar is exactly four quarter notes of samples |
| `Mixer.EventFitsInBar` | main.py:69 | An event of at most a dotted quarter note takes no more samples than a bar |
| `Mixer.PlannedEventsMixable` | main.py:77-92 | Every planned event is mixable: a non-negative duration, and a rest or a note in the tone library |
| `Mixer.PlannedChordChangesAtBarLines` | main.py:105-107 | In a planned melody every step is within a bar, so the chord changes exactly when the cursor enters a new bar |
| `Mixer.PlannedSamplesFit` | main.py:83-105 | A planned melody's cursor steps are non-negative and never run past the buffer; a non-positive total gives no steps |
| `Mixer.Zeros` | main.py:83 | The fresh buffer has the requested length and is silent |
| `Mixer.Render` | main.py:61-114 | One int16 sample per buffer sample, all in [-32767, 32767]; either all are 0 or one is at full scale |
| `Mixer.GenerateMusic` | main.py:61-114 | An unknown mood fails, and only an unknown mood fails with UnknownMood. A negative or zero buffer length fails. Otherwise the samples are the render of the planned, mixed, normalized and quantized track |

## Left out

- Numeric values of `np.sin` and `np.exp` are not modelled. They are parameters, and the envelope lemmas assume `ExpAxioms` (and, for one lemma, exp(-5) >= 0).
- Floating-point rounding is not modelled: all arithmetic is exact `real`.
- `Waveform.EnvelopeAttenuates` additionally assumes exp(-5) >= 0, which `ExpAxioms` does not imply.
- `Waveform.CreateWaveform` requires a non-negative duration. For a negative sample count `np.linspace` raises, and no caller in `main.py` passes a negative duration.
- `Melody.PlanMelody` does not model the random module. Choices come from the injected `draws`, so no claim is made about their distribution.
- The console messages and the timestamped file name (main.py:81, 109, 116-117) are left out. They are I/O and clock reads that affect no sample.
- Writing the WAV file (main.py:119-120) is left out: it is file I/O. `Mixer.GenerateMusic` returns the samples that would be written.
- The interactive menu under `__main__` (main.py:122-145) is left out. It is console input and exception reporting around one call of `generate_music`.
- `Mixer.GenerateMusic` normalizes the buffer's value (`track[..]`). It does not rebind a new array, as `final_track_data / max_amp` does. That array is never aliased, so nothing observable differs.
- `Mixer.ToInt16` models the cast of an out-of-range value as a two's-complement wrap of its truncation. On the planned path no sample is out of range (`Mixer.Quantize`), so the choice never matters there.
- `Mixer.MixEvents` requires the events to fit the buffer and the sample cursor to never go backwards. `main.py` does not check either, but both hold for every planned melody (`Mixer.PlannedSamplesFit`, `Mixer.PlannedEventsMixable`).
