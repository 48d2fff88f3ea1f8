/** The metronome scheduler: a look-ahead loop that emits click events up to a short horizon
    ahead of the audio clock, one per subdivision, with the downbeat accented and optional swing
    on eighth-note subdivisions. */
module Metronome {
  import opened JsNum
  import opened Tempo

  /** `scheduleAheadTime`: clicks are scheduled while they fall before `now + Ahead`. */
  const Ahead: real := 0.12

  /** What the scheduler reads from the transport on each tick: the time signature's numerator,
      the pulses per beat, the swing percentage, the measure length, and the play state. */
  datatype Config = Config(tsTop: int, pulses: int, swing: real, measure: real, playing: bool, startAt: real)

  predicate Valid(c: Config) {
    c.tsTop >= 1 && c.pulses >= 1 && c.measure > 0.0
  }

  /** `totalSubdivisionsPerMeasure`. */
  function Total(c: Config): (t: int)
    requires Valid(c)
    ensures t >= 1
  {
    c.tsTop * c.pulses
  }

  /** `beatDuration`: seconds per beat. */
  function Beat(c: Config): real
    requires Valid(c)
  {
    c.measure / c.tsTop as real
  }

  /** A click event: its audio-clock time and whether it is accented. */
  datatype Click = Click(time: real, accent: bool)

  /** The accent test of the scheduler on subdivision `idx` of the measure (the index already
      reduced modulo the subdivisions per measure): the first subdivision of the first beat. */
  function IsAccent(c: Config, idx: nat): bool
    requires Valid(c)
  {
    idx / c.pulses == 0 && idx % c.pulses == 0
  }

  /** Only subdivision 0 of a measure is accented. */
  lemma AccentOnlyOnDownbeat(c: Config, idx: nat)
    requires Valid(c) && idx < Total(c)
    ensures IsAccent(c, idx) <==> idx == 0
  {
    SmallMod(idx, Total(c));
    ZeroQuotientAndRemainder(idx, c.pulses);
  }

  /** The on-beat eighth under swing: `beatDuration * (0.5 + (swing / 100) / 2)`. */
  function SwungFirst(c: Config): real
    requires Valid(c)
  {
    Beat(c) * (0.5 + (c.swing / 100.0) / 2.0)
  }

  /** True when swing applies: two pulses per beat and a positive swing percentage. */
  predicate Swung(c: Config) {
    c.pulses == 2 && c.swing > 0.0
  }

  /** The duration of subdivision `idx` of the measure: an equal share of the beat, or under swing the long
      on-beat eighth followed by the short off-beat one. */
  function PulseDuration(c: Config, idx: nat): real
    requires Valid(c)
  {
    var sub := idx % c.pulses;
    if Swung(c) then
      (if sub == 0 then SwungFirst(c) else Beat(c) - SwungFirst(c))
    else
      Beat(c) / c.pulses as real
  }

  /** A swung pair of eighths lasts exactly one beat, the first taking `swing/200` of a beat from the second. */
  lemma SwingPairIsOneBeat(c: Config, j: nat)
    requires Valid(c) && Swung(c) && 2 * j + 1 < Total(c)
    ensures PulseDuration(c, 2 * j) == Beat(c) * (0.5 + c.swing / 200.0)
    ensures PulseDuration(c, 2 * j) + PulseDuration(c, 2 * j + 1) == Beat(c)
    ensures PulseDuration(c, 2 * j) > PulseDuration(c, 2 * j + 1)
  {
    var a := 2 * j;
    SmallMod(a, Total(c));
    SmallMod(a + 1, Total(c));
    SwungFirstIsLonger(c);
  }

  /** Under swing the on-beat eighth is longer than the off-beat one. */
  lemma SwungFirstIsLonger(c: Config)
    requires Valid(c) && Swung(c)
    ensures SwungFirst(c) > Beat(c) - SwungFirst(c)
  {
    var s := c.swing / 100.0 / 2.0;
    var b := Beat(c);
    assert s > 0.0;
    assert b > 0.0;
    MulLt(0.5 - s, 0.5 + s, b);
    assert b - b * (0.5 + s) == (0.5 - s) * b;
  }

  /** The time from the downbeat to subdivision `n` of the measure: the sum of the first `n` pulses. */
  function Offset(c: Config, n: nat): real
    requires Valid(c) && n <= Total(c)
  {
    if n == 0 then 0.0 else Offset(c, n - 1) + PulseDuration(c, n - 1)
  }

  lemma {:induction false} StraightOffset(c: Config, n: nat)
    requires Valid(c) && !Swung(c) && n <= Total(c)
    ensures Offset(c, n) == n as real * (Beat(c) / c.pulses as real)
  {
    if n > 0 {
      StraightOffset(c, n - 1);
    }
  }

  lemma RealMulSucc(x: real, b: real)
    ensures x * b + b == (x + 1.0) * b
  {
  }

  /** Under swing, each pair of eighths adds one beat to the offset. */
  lemma SwungPair(c: Config, i: nat)
    requires Valid(c) && Swung(c) && 2 * i + 2 <= Total(c)
    ensures Offset(c, 2 * i + 2) == Offset(c, 2 * i) + Beat(c)
  {
    var a := 2 * i;
    SwingPairIsOneBeat(c, i);
    assert Offset(c, a + 1) == Offset(c, a) + PulseDuration(c, a);
    assert Offset(c, a + 2) == Offset(c, a + 1) + PulseDuration(c, a + 1);
  }

  lemma {:induction false} SwungOffset(c: Config, j: nat)
    requires Valid(c) && Swung(c) && 2 * j <= Total(c)
    ensures Offset(c, 2 * j) == j as real * Beat(c)
  {
    if j > 0 {
      var i := j - 1;
      var a := 2 * i;
      var b := Beat(c);
      SwungOffset(c, i);
      SwungPair(c, i);
      assert 2 * j == a + 2;
      RealMulSucc(i as real, b);
    }
  }

  /** The pulses of one measure add up to exactly one measure, with or without swing. */
  lemma PulsesFillMeasure(c: Config)
    requires Valid(c)
    ensures Offset(c, Total(c)) == c.measure
  {
    if Swung(c) {
      SwungMeasure(c);
    } else {
      StraightMeasure(c);
    }
  }

  lemma SwungMeasure(c: Config)
    requires Valid(c) && Swung(c)
    ensures Offset(c, Total(c)) == c.measure
  {
    SwungOffset(c, c.tsTop);
    assert 2 * c.tsTop == Total(c);
    assert c.tsTop as real * Beat(c) == c.measure;
  }

  lemma StraightMeasure(c: Config)
    requires Valid(c) && !Swung(c)
    ensures Offset(c, Total(c)) == c.measure
  {
    var top := c.tsTop as real;
    var p := c.pulses as real;
    var beat := Beat(c);
    var share := beat / p;
    StraightOffset(c, Total(c));
    assert beat * top == c.measure;
    assert share * p == beat;
    calc {
      Total(c) as real * share;
      == (top * p) * share;
      == top * (share * p);
      == top * beat;
      == c.measure;
    }
  }

  /** The downbeat of the next measure: on the loop grid while playing, else where the measure ended. */
  function MeasureSnap(c: Config, t: real): (r: real)
    requires Valid(c)
    ensures t <= r < t + c.measure
    ensures c.playing ==> OnGrid(r, c.startAt, c.measure)
    ensures !c.playing || OnGrid(t, c.startAt, c.measure) ==> r == t
  {
    if c.playing then GridCeil(c.startAt, t, c.measure) else t
  }

  /** The scheduler's position: the time of the next unscheduled click and its subdivision index. */
  datatype Cursor = Cursor(time: real, index: nat)

  /** One pass of the scheduler loop body: advance by the pulse, step the index, and at the end
      of a measure wrap the index and snap the time to the next downbeat. */
  function Step(c: Config, cur: Cursor): Cursor
    requires Valid(c)
  {
    var t := cur.time + PulseDuration(c, cur.index);
    var i := cur.index + 1;
    if i >= Total(c) then Cursor(MeasureSnap(c, t), 0) else Cursor(t, i)
  }

  /** The scheduler's position after `n` clicks. */
  function Walk(c: Config, start: Cursor, n: nat): Cursor
    requires Valid(c)
  {
    if n == 0 then start else Step(c, Walk(c, start, n - 1))
  }

  /** The click emitted at a position. */
  function ClickAt(c: Config, cur: Cursor): Click
    requires Valid(c)
  {
    Click(cur.time, IsAccent(c, cur.index))
  }

  /** The first `n` clicks emitted from a position. */
  function Schedule(c: Config, start: Cursor, n: nat): (s: seq<Click>)
    requires Valid(c)
    ensures |s| == n
  {
    if n == 0 then [] else Schedule(c, start, n - 1) + [ClickAt(c, Walk(c, start, n - 1))]
  }

  /** Click `k` of a schedule is the click at the `k`-th position of the walk. */
  lemma {:induction false} ScheduleAt(c: Config, start: Cursor, n: nat, k: nat)
    requires Valid(c) && k < n
    ensures Schedule(c, start, n)[k] == ClickAt(c, Walk(c, start, k))
  {
    if k < n - 1 {
      ScheduleAt(c, start, n - 1, k);
    }
  }

  /** A step moves forward by at least its pulse. */
  lemma StepAdvances(c: Config, cur: Cursor)
    requires Valid(c)
    ensures Step(c, cur).time >= cur.time + PulseDuration(c, cur.index)
  {
  }

  /** Inside a measure, subdivision `n` sits `Offset(n)` after the downbeat. */
  lemma {:induction false} WalkWithinMeasure(c: Config, downbeat: real, n: nat)
    requires Valid(c) && n < Total(c)
    ensures Walk(c, Cursor(downbeat, 0), n) == Cursor(downbeat + Offset(c, n), n)
  {
    if n > 0 {
      WalkWithinMeasure(c, downbeat, n - 1);
    }
  }

  /** A measure starting on a downbeat (on the loop grid while playing) ends exactly one measure
      later, back at subdivision 0. */
  lemma {:induction false} MeasureIsExact(c: Config, downbeat: real)
    requires Valid(c)
    requires c.playing ==> OnGrid(downbeat, c.startAt, c.measure)
    ensures Walk(c, Cursor(downbeat, 0), Total(c)) == Cursor(downbeat + c.measure, 0)
  {
    var n := Total(c) - 1;
    WalkWithinMeasure(c, downbeat, n);
    PulsesFillMeasure(c);
    assert downbeat + Offset(c, n) + PulseDuration(c, n) == downbeat + c.measure;
    if c.playing {
      GridNext(downbeat, c.startAt, c.measure);
    }
  }

  /** Walking `a` then `b` clicks is walking `a + b` clicks. */
  lemma {:induction false} WalkConcat(c: Config, start: Cursor, a: nat, b: nat)
    requires Valid(c)
    ensures Walk(c, start, a + b) == Walk(c, Walk(c, start, a), b)
  {
    if b > 0 {
      WalkConcat(c, start, a, b - 1);
    }
  }

  /** After `q` whole measures the scheduler is on the downbeat exactly `q` measures later: no drift. */
  lemma {:induction false} MeasuresDoNotDrift(c: Config, downbeat: real, q: nat)
    requires Valid(c)
    requires c.playing ==> OnGrid(downbeat, c.startAt, c.measure)
    ensures Walk(c, Cursor(downbeat, 0), q * Total(c)) == Cursor(downbeat + q as real * c.measure, 0)
  {
    var total := Total(c);
    var start := Cursor(downbeat, 0);
    if q == 0 {
      assert q * total == 0;
    } else {
      var p: nat := q - 1;
      var n: nat := p * total;
      var prev := downbeat + p as real * c.measure;
      MeasuresDoNotDrift(c, downbeat, p);
      assert Walk(c, start, n) == Cursor(prev, 0);
      WalkConcat(c, start, n, total);
      if c.playing {
        GridAfter(downbeat, c.startAt, c.measure, p);
      }
      MeasureIsExact(c, prev);
      MulSucc(p, total);
      calc {
        prev + c.measure;
        == downbeat + (p as real * c.measure + c.measure);
        == downbeat + q as real * c.measure;
      }
    }
  }

  /** Exactly one click per measure is accented: the downbeat. */
  lemma OneAccentPerMeasure(c: Config, downbeat: real, n: nat)
    requires Valid(c) && n < Total(c)
    ensures ClickAt(c, Walk(c, Cursor(downbeat, 0), n)).accent <==> n == 0
  {
    WalkWithinMeasure(c, downbeat, n);
    AccentOnlyOnDownbeat(c, n);
  }

  /** Four-four at 120 BPM with quarter-note pulses clicks every half second. */
  lemma QuarterNotesAt120(startAt: real, playing: bool, idx: nat)
    requires idx < 4
    ensures var c := Config(4, 1, 0.0, MeasureLength(120.0, 4, 4), playing, startAt);
      Valid(c) && Total(c) == 4 && PulseDuration(c, idx) == 0.5
  {
    var c := Config(4, 1, 0.0, MeasureLength(120.0, 4, 4), playing, startAt);
    assert c.measure == 2.0;
    assert idx % 4 == idx;
  }

  /** Half swing on eighths of a half-second beat: 0.375 s then 0.125 s. */
  lemma HalfSwingOnEighths(startAt: real, playing: bool)
    ensures var c := Config(4, 2, 50.0, 2.0, playing, startAt);
      Valid(c) && PulseDuration(c, 0) == 0.375 && PulseDuration(c, 1) == 0.125
  {
    var c := Config(4, 2, 50.0, 2.0, playing, startAt);
    assert Beat(c) == 0.5;
    assert 1 % Total(c) == 1;
  }

  /** A positive lower bound on every positive pulse: the scheduler loop's progress per click. */
  function MinPulse(c: Config): (m: real)
    requires Valid(c)
    ensures m > 0.0
  {
    var straight := Beat(c) / c.pulses as real;
    assert straight > 0.0;
    if Swung(c) then
      (if Beat(c) - SwungFirst(c) > 0.0 then Beat(c) - SwungFirst(c) else SwungFirst(c))
    else straight
  }

  lemma PulseAtLeastMin(c: Config, idx: nat)
    requires Valid(c) && PulseDuration(c, idx) > 0.0
    ensures PulseDuration(c, idx) >= MinPulse(c)
  {
    if Swung(c) {
      SwungFirstIsLonger(c);
    }
  }

  /** The scheduler's stepping as written: at the end of a measure the next downbeat is the grid
      point at or after `now` (the tick's clock reading), not after the advanced time; with the
      transport stopped the grid reference is `now` itself, so the downbeat becomes `now`. */
  function SnapAsWritten(c: Config, now: real): real
    requires Valid(c)
  {
    var ref := if c.playing then c.startAt else now;
    ref + Ceil((now - ref) / c.measure) as real * c.measure
  }

  function StepAsWritten(c: Config, now: real, cur: Cursor): Cursor
    requires Valid(c)
  {
    var t := cur.time + PulseDuration(c, cur.index);
    var i := cur.index + 1;
    if i >= Total(c) then Cursor(SnapAsWritten(c, now), 0) else Cursor(t, i)
  }

  function WalkAsWritten(c: Config, now: real, start: Cursor, n: nat): Cursor
    requires Valid(c)
  {
    if n == 0 then start else StepAsWritten(c, now, WalkAsWritten(c, now, start, n - 1))
  }

  /** The first `n` clicks the scheduler as written emits from a position in a tick at `now`. */
  function ScheduleAsWritten(c: Config, now: real, start: Cursor, n: nat): (s: seq<Click>)
    requires Valid(c)
    ensures |s| == n
  {
    if n == 0 then [] else ScheduleAsWritten(c, now, start, n - 1) + [ClickAt(c, WalkAsWritten(c, now, start, n - 1))]
  }

  /** With one subdivision per measure (numerator 1, quarter pulses), the written scheduler never
      leaves its loop once the pending click falls inside the horizon: each pass wraps the measure
      and snaps back to the grid point at or after `now` (while playing) or to `now` itself (while
      stopped), which is again inside the horizon, and the pulse is positive so the safety break never
      fires. */
  lemma {:induction false} AsWrittenSchedulerNeverExits(c: Config, now: real, t: real, n: nat)
    requires Valid(c) && Total(c) == 1
    requires t < now + Ahead
    requires c.playing ==> now <= t && OnGrid(t, c.startAt, c.measure)
    ensures PulseDuration(c, 0) > 0.0
    ensures WalkAsWritten(c, now, Cursor(t, 0), n + 1) == Cursor(SnapAsWritten(c, now), 0)
    ensures SnapAsWritten(c, now) < now + Ahead
  {
    assert c.pulses == 1;
    assert Beat(c) / 1.0 > 0.0;
    if c.playing {
      GridCeilIsLeast(c.startAt, now, t, c.measure);
    } else {
      assert (now - now) / c.measure == 0.0;
    }
    if n > 0 {
      AsWrittenSchedulerNeverExits(c, now, t, n - 1);
    }
  }

  /** With one subdivision per measure, every position the written loop reaches is inside the
      horizon and has a positive pulse, so neither exit of the loop is ever taken. */
  lemma {:induction false} AsWrittenLoopNeverEnds(c: Config, now: real, t: real, n: nat)
    requires Valid(c) && Total(c) == 1
    requires t < now + Ahead
    requires c.playing ==> now <= t && OnGrid(t, c.startAt, c.measure)
    ensures WalkAsWritten(c, now, Cursor(t, 0), n).time < now + Ahead
    ensures PulseDuration(c, WalkAsWritten(c, now, Cursor(t, 0), n).index) > 0.0
  {
    if n == 0 {
      AsWrittenSchedulerNeverExits(c, now, t, 0);
    } else {
      AsWrittenSchedulerNeverExits(c, now, t, n - 1);
    }
  }

  /** With the transport stopped, the written wrap moves the next downbeat to `now`: after a
      measure that ended at `t + pulse > now`, the next measure starts early. */
  lemma AsWrittenStoppedDownbeatIsNow(c: Config, now: real, cur: Cursor)
    requires Valid(c) && !c.playing && cur.index + 1 == Total(c)
    ensures StepAsWritten(c, now, cur) == Cursor(now, 0)
    ensures Step(c, cur) == Cursor(cur.time + PulseDuration(c, cur.index), 0)
  {
    assert (now - now) / c.measure == 0.0;
  }

  /** The scheduler's timer state: whether the metronome is enabled, whether a re-run is pending
      (`metronomeTimerID`), and the cursor of the next click. */
  class Metronome {
    var enabled: bool
    var armed: bool
    var nextTime: real
    var index: nat

    constructor()
      ensures !enabled && !armed && nextTime == 0.0 && index == 0
    {
      enabled := false;
      armed := false;
      nextTime := 0.0;
      index := 0;
    }

    /** `metronomeScheduler`: emit every click that falls before `now + Ahead`, then re-arm the
        timer. The measure wrap snaps to the grid at or after the advanced time. */
    method Tick(c: Config, now: real) returns (clicks: seq<Click>)
      requires Valid(c) && index < Total(c)
      modifies this
      ensures enabled == old(enabled) && index < Total(c)
      ensures !old(enabled) ==>
                clicks == [] && armed == old(armed) && nextTime == old(nextTime) && index == old(index)
      ensures old(enabled) ==> armed
      ensures clicks == Schedule(c, Cursor(old(nextTime), old(index)), |clicks|)
      ensures Cursor(nextTime, index) == Walk(c, Cursor(old(nextTime), old(index)), |clicks|)
      ensures forall k :: 0 <= k < |clicks| ==> clicks[k].time < now + Ahead
      ensures old(enabled) ==>
                nextTime >= now + Ahead
                || (|clicks| > 0 && PulseDuration(c, Walk(c, Cursor(old(nextTime), old(index)), |clicks| - 1).index) <= 0.0)
    {
      clicks := [];
      if !enabled {
        return;
      }
      var total := Total(c);
      ghost var start := Cursor(nextTime, index);
      ghost var step := MinPulse(c);
      while nextTime < now + Ahead
        invariant enabled == old(enabled)
        invariant index < total
        invariant Cursor(nextTime, index) == Walk(c, start, |clicks|)
        invariant clicks == Schedule(c, start, |clicks|)
        invariant forall k :: 0 <= k < |clicks| ==> clicks[k].time < now + Ahead
        decreases Ceil((now + Ahead - nextTime) / step)
      {
        CeilPositive(now + Ahead - nextTime, step);
        ghost var n := |clicks|;
        ghost var cur := Cursor(nextTime, index);
        var click, pulseDuration := Advance(c);
        clicks := clicks + [click];
        assert Cursor(nextTime, index) == Walk(c, start, n + 1);
        if pulseDuration <= 0.0 {
          break;
        }
        PulseAtLeastMin(c, cur.index);
        CeilDecreases(now + Ahead - cur.time, now + Ahead - nextTime, step);
      }
      armed := true;
    }

    /** One pass of the scheduler loop: the click at the cursor, then the cursor steps on by the
        pulse, wrapping and snapping at the end of the measure. */
    method Advance(c: Config) returns (click: Click, pulse: real)
      requires Valid(c) && index < Total(c)
      modifies this
      ensures click == ClickAt(c, Cursor(old(nextTime), old(index)))
      ensures pulse == PulseDuration(c, old(index))
      ensures Cursor(nextTime, index) == Step(c, Cursor(old(nextTime), old(index)))
      ensures index < Total(c) && enabled == old(enabled) && armed == old(armed)
    {
      var total := Total(c);
      var idx := index % total;
      SmallMod(index, total);
      click := Click(nextTime, IsAccent(c, idx));
      pulse := PulseDuration(c, idx);
      nextTime := nextTime + pulse;
      index := index + 1;
      if index >= total {
        index := 0;
        nextTime := MeasureSnap(c, nextTime);
      }
    }

    /** `metronomeScheduler` as written, run for at most `fuel` passes of its loop: the measure wrap
        snaps to the grid at or after the tick's `now` (see `SnapAsWritten`). `done` says the loop
        ended by itself, at the horizon or on a pulse that is not positive, and the timer was
        re-armed; otherwise the fuel ran out with the loop still running and the timer untouched.
        With one subdivision per measure and the pending click inside the horizon the loop never
        ends, whatever the fuel. */
    method TickAsWritten(c: Config, now: real, fuel: nat) returns (clicks: seq<Click>, done: bool)
      requires Valid(c) && index < Total(c)
      modifies this
      ensures enabled == old(enabled) && index < Total(c) && |clicks| <= fuel
      ensures !old(enabled) ==>
                clicks == [] && done && armed == old(armed) && nextTime == old(nextTime) && index == old(index)
      ensures clicks == ScheduleAsWritten(c, now, Cursor(old(nextTime), old(index)), |clicks|)
      ensures Cursor(nextTime, index) == WalkAsWritten(c, now, Cursor(old(nextTime), old(index)), |clicks|)
      ensures forall k :: 0 <= k < |clicks| ==> clicks[k].time < now + Ahead
      ensures old(enabled) && done ==>
                armed
                && (nextTime >= now + Ahead
                    || (|clicks| > 0
                        && PulseDuration(c, WalkAsWritten(c, now, Cursor(old(nextTime), old(index)), |clicks| - 1).index) <= 0.0))
      ensures !done ==> |clicks| == fuel && nextTime < now + Ahead && armed == old(armed)
      ensures (old(enabled) && Total(c) == 1 && old(nextTime) < now + Ahead
               && (c.playing ==> now <= old(nextTime) && OnGrid(old(nextTime), c.startAt, c.measure))) ==> !done
    {
      clicks := [];
      done := true;
      if !enabled {
        return;
      }
      ghost var start := Cursor(nextTime, index);
      var stopped;
      clicks, stopped := PassesAsWritten(c, now, fuel);
      done := stopped || nextTime >= now + Ahead;
      if done {
        armed := true;
      }
      if Total(c) == 1 && start.time < now + Ahead && (c.playing ==> now <= start.time && OnGrid(start.time, c.startAt, c.measure)) {
        assert start == Cursor(start.time, 0);
        AsWrittenLoopNeverEnds(c, now, start.time, |clicks|);
        if |clicks| > 0 {
          AsWrittenLoopNeverEnds(c, now, start.time, |clicks| - 1);
        }
      }
    }

    /** The `while` of `metronomeScheduler` as written, for at most `fuel` passes: `stopped` says it
        left by the safety break on a pulse that is not positive; otherwise it reached the horizon
        or spent the fuel. */
    method PassesAsWritten(c: Config, now: real, fuel: nat) returns (clicks: seq<Click>, stopped: bool)
      requires Valid(c) && index < Total(c)
      modifies this
      ensures enabled == old(enabled) && armed == old(armed) && index < Total(c) && |clicks| <= fuel
      ensures clicks == ScheduleAsWritten(c, now, Cursor(old(nextTime), old(index)), |clicks|)
      ensures Cursor(nextTime, index) == WalkAsWritten(c, now, Cursor(old(nextTime), old(index)), |clicks|)
      ensures forall k :: 0 <= k < |clicks| ==> clicks[k].time < now + Ahead
      ensures stopped ==>
                |clicks| > 0
                && PulseDuration(c, WalkAsWritten(c, now, Cursor(old(nextTime), old(index)), |clicks| - 1).index) <= 0.0
      ensures !stopped ==> nextTime >= now + Ahead || |clicks| == fuel
    {
      ghost var start := Cursor(nextTime, index);
      clicks := [];
      stopped := false;
      ghost var n: nat := 0;
      ghost var last := start;
      while nextTime < now + Ahead && |clicks| < fuel
        invariant |clicks| <= fuel && index < Total(c)
        invariant enabled == old(enabled) && armed == old(armed)
        invariant Cursor(nextTime, index) == WalkAsWritten(c, now, start, |clicks|)
        invariant clicks == ScheduleAsWritten(c, now, start, |clicks|)
        invariant forall k :: 0 <= k < |clicks| ==> clicks[k].time < now + Ahead
        invariant last == WalkAsWritten(c, now, start, n) && last.index < Total(c)
        invariant PulseDuration(c, last.index) <= 0.0 || !stopped
        invariant stopped ==> |clicks| == n + 1
        decreases fuel - |clicks|, if stopped then 0 else 1
      {
        n, last := |clicks|, Cursor(nextTime, index);
        var click, pulse := AdvanceAsWritten(c, now);
        clicks := clicks + [click];
        if pulse <= 0.0 {
          stopped := true;
          break;
        }
      }
    }

    /** One pass of the scheduler loop as written: the click at the cursor, then the cursor steps on
        by the pulse, and at the end of the measure snaps to the grid at or after `now`. */
    method AdvanceAsWritten(c: Config, now: real) returns (click: Click, pulse: real)
      requires Valid(c) && index < Total(c)
      modifies this
      ensures click == ClickAt(c, Cursor(old(nextTime), old(index)))
      ensures pulse == PulseDuration(c, old(index))
      ensures Cursor(nextTime, index) == StepAsWritten(c, now, Cursor(old(nextTime), old(index)))
      ensures index < Total(c) && enabled == old(enabled) && armed == old(armed)
    {
      var total := Total(c);
      var idx := index % total;
      SmallMod(index, total);
      click := Click(nextTime, IsAccent(c, idx));
      pulse := PulseDuration(c, idx);
      nextTime := nextTime + pulse;
      index := index + 1;
      if index >= total {
        index := 0;
        var ref := if c.playing then c.startAt else now;
        nextTime := ref + Ceil((now - ref) / c.measure) as real * c.measure;
      }
    }

    /** `startMetronome`: when enabled and not already running, put the first click on the next
        measure boundary (of the loop grid while playing, else one measure from now) and run a tick. */
    method Start(c: Config, now: real) returns (clicks: seq<Click>)
      requires Valid(c)
      modifies this
      ensures enabled == old(enabled)
      ensures !old(enabled) || old(armed) ==>
                clicks == [] && armed == old(armed) && nextTime == old(nextTime) && index == old(index)
      ensures old(enabled) && !old(armed) ==>
                armed && index < Total(c)
                && clicks == Schedule(c, Cursor(MetronomeStart(now, c.playing, c.startAt, c.measure), 0), |clicks|)
                && Cursor(nextTime, index)
                   == Walk(c, Cursor(MetronomeStart(now, c.playing, c.startAt, c.measure), 0), |clicks|)
    {
      clicks := [];
      if !enabled || armed {
        return;
      }
      nextTime := MetronomeStart(now, c.playing, c.startAt, c.measure);
      index := 0;
      clicks := Tick(c, now);
    }

    /** `stopMetronome`: cancel the pending re-run. */
    method Stop()
      modifies this
      ensures !armed
      ensures enabled == old(enabled) && nextTime == old(nextTime) && index == old(index)
    {
      armed := false;
    }
  }

  /** A positive remaining time needs at least one more step. */
  lemma CeilPositive(a: real, s: real)
    requires s > 0.0
    ensures a > 0.0 ==> Ceil(a / s) >= 1
  {
    NonNegativeQuotient(a, s);
    if a > 0.0 {
      assert a / s != 0.0;
    }
  }

  /** Moving forward by at least `s` lowers the remaining number of steps. */
  lemma CeilDecreases(a: real, b: real, s: real)
    requires s > 0.0 && b <= a - s
    ensures Ceil(b / s) < Ceil(a / s)
  {
    CeilScale(a, s);
    CeilScale(b, s);
    var x := Ceil(a / s);
    var y := Ceil(b / s);
    calc {
      y as real * s;
      < b + s;
      <= a;
      <= x as real * s;
    }
    ProductOrder(y, x, s);
  }

  /** For whole numbers, `a * s < b * s` means `a < b`. */
  lemma ProductOrder(a: int, b: int, s: real)
    requires s > 0.0 && a as real * s < b as real * s
    ensures a < b
  {
    if a >= b {
      MulLe(b as real, a as real, s);
    }
  }
}
