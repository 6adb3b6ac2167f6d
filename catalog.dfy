/** The tone library and the mood catalog: read-only tables looked up by key. */
module Catalog {

  /** The sentinel note name of a silent melody event. */
  const Rest: string := "REST"

  /** Note name to frequency in Hz, over three octaves. */
  const Notes: map<string, real> := map[
    "C3" := 130.81, "D3" := 146.83, "E3" := 164.81, "F3" := 174.61, "G3" := 196.00, "A3" := 220.00, "B3" := 246.94,
    "C4" := 261.63, "D4" := 293.66, "Eb4" := 311.13, "E4" := 329.63, "F4" := 349.23, "G4" := 392.00,
    "Ab4" := 415.30, "A4" := 440.00, "B4" := 493.88,
    "C5" := 523.25, "D5" := 587.33, "E5" := 659.25, "G5" := 783.99
  ]

  /** A chord is an ordered tuple of note names; a name missing from `Notes` is skipped when mixing. */
  type Chord = seq<string>

  /** A mood bundles the scale the melody draws from, a chord progression and a tempo in beats per minute. */
  datatype Mood = Mood(scale: seq<string>, chords: seq<Chord>, bpm: int)

  const Happy: Mood := Mood(
    ["C4", "D4", "E4", "F4", "G4", "A4", "B4", "C5"],
    [["C4", "E4", "G4"], ["G4", "B4", "D5"], ["A4", "C5", "E5"], ["F4", "A4", "C5"]],
    120)

  const Sad: Mood := Mood(
    ["C4", "Eb4", "F4", "G4", "Ab4", "C5"],
    [["C4", "Eb4", "G4"], ["Ab4", "C5", "Eb4"], ["F3", "Ab3", "C4"], ["G3", "A3", "D4"]],
    75)

  const Dreamy: Mood := Mood(
    ["C4", "E4", "G4", "A4", "C5", "E5", "G5"],
    [["C4", "E4", "G4", "B4"], ["A3", "C4", "E4", "G4"]],
    60)

  const Moods: map<string, Mood> := map["happy" := Happy, "sad" := Sad, "dreamy" := Dreamy]

  /** Every note a mood's scale offers resolves in the tone library. */
  predicate ScaleResolves(m: Mood) {
    forall n :: n in m.scale ==> n in Notes
  }

  /** The direct lookup of a melody note never fails: every scale note of every mood has a frequency. */
  lemma CatalogScalesResolve(key: string)
    requires key in Moods
    ensures ScaleResolves(Moods[key])
  {
  }

  /** The rest sentinel is not a note name, so a rest is never looked up. */
  lemma RestHasNoFrequency()
    ensures Rest !in Notes
  {
  }

  /** The sad progression's third chord names "Ab3", which the tone library lacks. */
  lemma SadProgressionHasUnresolvableNote()
    ensures "Ab3" in Moods["sad"].chords[2] && "Ab3" !in Notes
  {
  }

  /** Every mood has a positive tempo and a non-empty progression. */
  lemma CatalogMoodsWellFormed(key: string)
    requires key in Moods
    ensures Moods[key].bpm > 0 && |Moods[key].chords| > 0
  {
  }
}
