/**
 * The melody planner: draws (note, duration) events until they cover the
 * requested total duration, clipping the last duration to the remainder.
 * Time is exact `real`. The random source is the injected `draws`: the k-th
 * call of `random.choice(xs)` returns `Choice(xs, draws(k))`.
 */
module Melody {
  import opened Numeric
  import opened Catalog

  /** One melody event: a note name (or `Rest`) held for `duration` seconds. */
  datatype Event = Event(note: string, duration: real)

  function QuarterNote(bpm: int): (q: real)
    requires 0 < bpm
    ensures 0.0 < q
  {
    60.0 / bpm as real
  }

  /** The candidate durations: a quarter, an eighth and a dotted quarter note. */
  function Rhythms(bpm: int): (r: seq<real>)
    requires 0 < bpm
    ensures |r| == 3
    ensures forall k :: 0 <= k < 3 ==> QuarterNote(bpm) / 2.0 <= r[k] <= 1.5 * QuarterNote(bpm)
  {
    var q := QuarterNote(bpm);
    [q, q / 2.0, q * 1.5]
  }

  /** `random.choice(xs)` given the value of one draw. */
  function Choice<T>(xs: seq<T>, draw: nat): (x: T)
    requires 0 < |xs|
    ensures x in xs
  {
    xs[draw % |xs|]
  }

  /** A drawn rhythm lies between an eighth and a dotted quarter note. */
  lemma DrawnRhythmBounds(bpm: int, draw: nat)
    requires 0 < bpm
    ensures QuarterNote(bpm) / 2.0 <= Choice(Rhythms(bpm), draw) <= 1.5 * QuarterNote(bpm)
  {
    assert Choice(Rhythms(bpm), draw) == Rhythms(bpm)[draw % 3];
  }

  /** What the melody voice may play: the scale and the rest sentinel, which comes last. */
  function Palette(m: Mood): (p: seq<string>)
    ensures |p| == |m.scale| + 1 && p[|m.scale|] == Rest
    ensures forall n :: n in p ==> n in m.scale || n == Rest
    ensures forall k :: 0 <= k < |m.scale| ==> p[k] == m.scale[k]
  {
    m.scale + [Rest]
  }

  /** Total duration of a sequence of events. */
  function Sum(events: seq<Event>): real {
    if events == [] then 0.0 else events[0].duration + Sum(events[1..])
  }

  /** The number of half-quarter-note slots left before `total`; it bounds the iterations left. */
  function Slots(total: real, elapsed: real, bpm: int): nat
    requires 0 < bpm
  {
    if elapsed < total then
      DivNonNegative(total - elapsed, QuarterNote(bpm) / 2.0);
      ((total - elapsed) / (QuarterNote(bpm) / 2.0)).Floor + 1
    else 0
  }

  /** A step of a drawn (possibly clipped) duration frees at least one slot. */
  lemma SlotsDecrease(total: real, elapsed: real, bpm: int, d: real)
    requires 0 < bpm && elapsed < total
    requires d == total - elapsed || QuarterNote(bpm) / 2.0 <= d
    requires d <= total - elapsed
    ensures Slots(total, elapsed + d, bpm) < Slots(total, elapsed, bpm)
  {
    if elapsed + d < total {
      var h := QuarterNote(bpm) / 2.0;
      assert total - (elapsed + d) == (total - elapsed) - d;
      FloorStepDecreases(total - elapsed, d, h);
    }
  }

  /**
   * The events the planner emits from time `elapsed` on, when the next draw
   * has index `next`: each iteration draws a rhythm, clips it to the
   * remainder, then draws a note.
   */
  function PlanFrom(palette: seq<string>, bpm: int, total: real, elapsed: real, next: nat, draws: nat -> nat): (p: seq<Event>)
    requires 0 < bpm && 0 < |palette|
    ensures p == [] <==> total <= elapsed
    decreases Slots(total, elapsed, bpm)
  {
    if elapsed < total then
      var drawn := Choice(Rhythms(bpm), draws(next));
      var duration := if elapsed + drawn > total then total - elapsed else drawn;
      var note := Choice(palette, draws(next + 1));
      SlotsDecrease(total, elapsed, bpm, duration);
      [Event(note, duration)] + PlanFrom(palette, bpm, total, elapsed + duration, next + 2, draws)
    else []
  }

  /** One iteration of the planner: the clipped drawn rhythm and the drawn note, then the rest of the plan. */
  lemma PlanFromStep(palette: seq<string>, bpm: int, total: real, elapsed: real, next: nat, draws: nat -> nat)
    requires 0 < bpm && 0 < |palette| && elapsed < total
    ensures var drawn := Choice(Rhythms(bpm), draws(next));
            var duration := if elapsed + drawn > total then total - elapsed else drawn;
            PlanFrom(palette, bpm, total, elapsed, next, draws)
            == [Event(Choice(palette, draws(next + 1)), duration)] + PlanFrom(palette, bpm, total, elapsed + duration, next + 2, draws)
  {
  }

  /** The whole melody of a mood for `total` seconds: empty exactly when the total is not positive. */
  function Plan(m: Mood, total: real, draws: nat -> nat): (p: seq<Event>)
    requires 0 < m.bpm
    ensures p == [] <==> total <= 0.0
  {
    PlanFrom(Palette(m), m.bpm, total, 0.0, 0, draws)
  }

  /** The planning loop of `generate_music`. */
  method PlanMelody(m: Mood, total: real, draws: nat -> nat) returns (events: seq<Event>)
    requires 0 < m.bpm
    ensures events == Plan(m, total, draws)
  {
    var palette := Palette(m);
    var rhythms := Rhythms(m.bpm);
    events := [];
    var elapsed := 0.0;
    var next := 0;
    while elapsed < total
      invariant events + PlanFrom(palette, m.bpm, total, elapsed, next, draws) == Plan(m, total, draws)
      decreases Slots(total, elapsed, m.bpm)
    {
      var duration := Choice(rhythms, draws(next));
      if elapsed + duration > total {
        duration := total - elapsed;
      }
      var note := Choice(palette, draws(next + 1));
      SlotsDecrease(total, elapsed, m.bpm, duration);
      PlanFromStep(palette, m.bpm, total, elapsed, next, draws);
      events := events + [Event(note, duration)];
      elapsed := elapsed + duration;
      next := next + 2;
    }
  }

  /** Exact coverage: the planned durations add up to what remained of the total. */
  lemma {:induction false} PlanFromCovers(palette: seq<string>, bpm: int, total: real, elapsed: real, next: nat, draws: nat -> nat)
    requires 0 < bpm && 0 < |palette|
    ensures Sum(PlanFrom(palette, bpm, total, elapsed, next, draws)) == if elapsed < total then total - elapsed else 0.0
    decreases Slots(total, elapsed, bpm)
  {
    var p := PlanFrom(palette, bpm, total, elapsed, next, draws);
    if elapsed < total {
      var drawn := Choice(Rhythms(bpm), draws(next));
      var duration := if elapsed + drawn > total then total - elapsed else drawn;
      SlotsDecrease(total, elapsed, bpm, duration);
      PlanFromCovers(palette, bpm, total, elapsed + duration, next + 2, draws);
      assert p[1..] == PlanFrom(palette, bpm, total, elapsed + duration, next + 2, draws);
    }
  }

  /**
   * Event `e` is what one iteration makes of its two draws: the note drawn
   * from the palette, held for a positive time no longer than the rhythm
   * drawn, and exactly that rhythm unless `e` is the clipped last event.
   */
  predicate FollowsDraws(e: Event, palette: seq<string>, bpm: int, rhythmDraw: nat, noteDraw: nat, last: bool)
    requires 0 < bpm && 0 < |palette|
  {
    && e.note == Choice(palette, noteDraw)
    && 0.0 < e.duration <= Choice(Rhythms(bpm), rhythmDraw)
    && (!last ==> e.duration == Choice(Rhythms(bpm), rhythmDraw))
  }

  /** Event j of the plan is made from draws `next + 2j` (rhythm) and `next + 2j + 1` (note). */
  lemma {:induction false} PlanFromEventAt(palette: seq<string>, bpm: int, total: real, elapsed: real, next: nat,
                                           draws: nat -> nat, j: nat)
    requires 0 < bpm && 0 < |palette|
    requires j < |PlanFrom(palette, bpm, total, elapsed, next, draws)|
    ensures var p := PlanFrom(palette, bpm, total, elapsed, next, draws);
            FollowsDraws(p[j], palette, bpm, draws(next + 2 * j), draws(next + 2 * j + 1), j == |p| - 1)
    decreases j
  {
    var p := PlanFrom(palette, bpm, total, elapsed, next, draws);
    var drawn := Choice(Rhythms(bpm), draws(next));
    var duration := if elapsed + drawn > total then total - elapsed else drawn;
    SlotsDecrease(total, elapsed, bpm, duration);
    var rest := PlanFrom(palette, bpm, total, elapsed + duration, next + 2, draws);
    assert p == [Event(Choice(palette, draws(next + 1)), duration)] + rest;
    if j == 0 {
      assert elapsed + drawn > total ==> rest == [];
      DrawnRhythmBounds(bpm, draws(next));
    } else {
      PlanFromEventAt(palette, bpm, total, elapsed + duration, next + 2, draws, j - 1);
      assert p[j] == rest[j - 1];
      assert next + 2 * j == (next + 2) + 2 * (j - 1);
    }
  }

  /** The melody of `total > 0` seconds covers it exactly; a non-positive total gives no events. */
  lemma PlanCoversTotal(m: Mood, total: real, draws: nat -> nat)
    requires 0 < m.bpm
    ensures 0.0 < total ==> Sum(Plan(m, total, draws)) == total
    ensures total <= 0.0 ==> Plan(m, total, draws) == []
  {
    PlanFromCovers(Palette(m), m.bpm, total, 0.0, 0, draws);
  }

  /**
   * Every event of a melody plays a scale note or a rest, for a strictly
   * positive duration of at most a dotted quarter note.
   */
  lemma PlanEventsWellFormed(m: Mood, total: real, draws: nat -> nat)
    requires 0 < m.bpm
    ensures forall e :: e in Plan(m, total, draws) ==>
              && (e.note in m.scale || e.note == Rest)
              && 0.0 < e.duration <= 1.5 * QuarterNote(m.bpm)
  {
    var p := Plan(m, total, draws);
    forall e | e in p
      ensures (e.note in m.scale || e.note == Rest) && 0.0 < e.duration <= 1.5 * QuarterNote(m.bpm)
    {
      var j :| 0 <= j < |p| && p[j] == e;
      PlanFromEventAt(Palette(m), m.bpm, total, 0.0, 0, draws, j);
      DrawnRhythmBounds(m.bpm, draws(2 * j));
      assert e.note in Palette(m);
    }
  }
}
