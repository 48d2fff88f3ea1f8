/** Transport arithmetic of the looper: measure length, tempo entry, loop sizing,
    and the alignment of play, metronome and record start times to the loop grid. */
module Tempo {
  import opened JsNum

  const MinBpm: real := 40.0
  const MaxBpm: real := 240.0
  const DefaultBpm: real := 120.0
  /** PRE_ROLL_MS, TAIL_MS and the extra boundary margin of the record path, in seconds. */
  const PreRoll: real := 0.12
  const Tail: real := 0.06
  const BoundaryMargin: real := 0.04

  /** Seconds per measure: a quarter note lasts 60/bpm seconds and a measure holds
      `tsTop` notes of 4/`tsBottom` quarters each. */
  function MeasureLength(bpm: real, tsTop: nat, tsBottom: nat): (m: real)
    requires bpm > 0.0 && tsTop >= 1 && tsBottom >= 1
    ensures m > 0.0
    ensures m * bpm * tsBottom as real == 240.0 * tsTop as real
  {
    var beat := 60.0 / bpm;
    var scale := 4.0 / tsBottom as real;
    MeasureIdentity(beat, scale, bpm, tsTop as real, tsBottom as real);
    beat * tsTop as real * scale
  }

  lemma MeasureIdentity(beat: real, scale: real, bpm: real, top: real, bottom: real)
    requires bpm > 0.0 && bottom > 0.0 && top > 0.0
    requires beat == 60.0 / bpm && scale == 4.0 / bottom
    ensures beat * top * scale > 0.0
    ensures beat * top * scale * bpm * bottom == 240.0 * top
  {
    assert beat * bpm == 60.0;
    assert scale * bottom == 4.0;
    calc {
      beat * top * scale * bpm * bottom;
      == (beat * bpm) * (scale * bottom) * top;
      == 60.0 * (scale * bottom) * top;
      == 60.0 * 4.0 * top;
    }
  }

  /** `Number(text) || fallback`: an unparsable entry (`None`, i.e. NaN) and zero both give the fallback. */
  function NumberOr(n: Option<real>, fallback: real): real {
    if n.None? || n.value == 0.0 then fallback else n.value
  }

  /** The typed tempo: `Math.max(40, Math.min(240, Number(text) || 120))`. */
  function TypedBpm(typed: Option<real>): (b: real)
    ensures MinBpm <= b <= MaxBpm
    ensures typed.None? || typed == Some(0.0) ==> b == DefaultBpm
    ensures typed.Some? && typed.value != 0.0 && MinBpm <= typed.value <= MaxBpm ==> b == typed.value
    ensures typed.Some? && typed.value != 0.0 && typed.value < MinBpm ==> b == MinBpm
    ensures typed.Some? && typed.value > MaxBpm ==> b == MaxBpm
  {
    MaxR(MinBpm, MinR(MaxBpm, NumberOr(typed, DefaultBpm)))
  }

  /** `Math.max(1, Math.round(len / measure))`: the whole number of measures nearest to `len`, at least one. */
  function WholeMeasures(len: real, measure: real): (k: int)
    requires measure > 0.0
    ensures k >= 1
  {
    Max(1, Round(len / measure))
  }

  /** The loop length after a re-snap: `WholeMeasures(len, measure) * measure`. */
  function SnappedLoop(len: real, measure: real): (r: real)
    requires measure > 0.0
    ensures r >= measure
    ensures OnGrid(r, 0.0, measure)
  {
    var k := WholeMeasures(len, measure);
    GridPoint(0.0, measure, k);
    assert 0.0 + k as real * measure == k as real * measure;
    k as real * measure
  }

  /** |k*m - len| = m * |k - len/m| for a positive measure `m`. */
  lemma ScaledDistance(k: int, len: real, m: real)
    requires m > 0.0
    ensures Abs(k as real * m - len) == m * Abs(k as real - len / m)
  {
    var x := len / m;
    calc { k as real * m - len; == k as real * m - x * m; == (k as real - x) * m; }
  }

  /** `Math.max(1, Math.round(x))` is at least as close to `x` as any other whole number from 1 up. */
  lemma NearestWhole(x: real, j: int)
    requires j >= 1
    ensures Abs(Max(1, Round(x)) as real - x) <= Abs(j as real - x)
  {
    var r := Round(x);
    var k := Max(1, r);
    if r < 1 {
      assert x < 0.5;
      assert k == 1;
    } else if j > k {
      assert j as real >= k as real + 1.0;
    } else if j < k {
      assert j as real <= k as real - 1.0;
    }
  }

  /** `WholeMeasures` is at least as close to `len / measure` as any other whole number from 1 up. */
  lemma WholeMeasuresIsNearest(len: real, measure: real, j: int)
    requires measure > 0.0 && j >= 1
    ensures Abs(WholeMeasures(len, measure) as real - len / measure) <= Abs(j as real - len / measure)
  {
    NearestWhole(len / measure, j);
  }

  /** Scaling two distances by the same positive measure keeps their order. */
  lemma ScaleOrder(a: real, b: real, m: real)
    requires m > 0.0 && a <= b
    ensures m * a <= m * b
  {
  }

  /** Two distances that are the same positive multiple of two ordered distances keep their order. */
  lemma ScaledOrder(p: real, q: real, dk: real, dj: real, m: real)
    requires m > 0.0 && dk <= dj && p == m * dk && q == m * dj
    ensures p <= q
  {
    ScaleOrder(dk, dj, m);
  }

  /** A re-snapped loop is the whole, non-zero number of measures nearest to the old length. */
  lemma {:induction false} SnapIsNearestWholeMeasure(len: real, measure: real, j: int)
    requires measure > 0.0 && j >= 1
    ensures Abs(SnappedLoop(len, measure) - len) <= Abs(j as real * measure - len)
  {
    var k := WholeMeasures(len, measure);
    WholeMeasuresIsNearest(len, measure, j);
    CloserInMeasures(len, measure, k, j);
    assert SnappedLoop(len, measure) == k as real * measure;
  }

  /** Whole counts that are ordered by distance in measures are ordered by distance in seconds. */
  lemma CloserInMeasures(len: real, measure: real, k: int, j: int)
    requires measure > 0.0
    requires Abs(k as real - len / measure) <= Abs(j as real - len / measure)
    ensures Abs(k as real * measure - len) <= Abs(j as real * measure - len)
  {
    ScaledDistance(k, len, measure);
    ScaledDistance(j, len, measure);
    ScaledOrder(Abs(k as real * measure - len), Abs(j as real * measure - len),
                Abs(k as real - len / measure), Abs(j as real - len / measure), measure);
  }

  /** The first recording sizes the loop by rounding to the NEAREST whole measure:
      a take of 1.4 measures gives a one-measure loop, a take of 1.5 measures gives two. */
  lemma FirstRecordingRoundsToNearest(measure: real)
    requires measure > 0.0
    ensures SnappedLoop(1.4 * measure, measure) == measure
    ensures SnappedLoop(1.5 * measure, measure) == 2.0 * measure
  {
    assert 1.4 * measure / measure == 1.4;
    assert 1.5 * measure / measure == 1.5;
  }

  /** The measure count typed into the loop box: `Math.max(1, Number(text) || fallback)`. */
  function MeasuresEntry(typed: Option<real>, fallback: real): (n: real)
    requires fallback >= 1.0
    ensures n >= 1.0
    ensures typed.Some? && typed.value >= 1.0 ==> n == typed.value
    ensures typed.None? || typed == Some(0.0) ==> n == fallback
    ensures typed.Some? && typed.value != 0.0 && typed.value < 1.0 ==> n == 1.0
  {
    MaxR(1.0, NumberOr(typed, fallback))
  }

  /** A whole number of periods is on the grid of 0. */
  lemma WholeMultipleOnGrid(n: real, period: real)
    requires period > 0.0
    ensures IsWhole(n) ==> OnGrid(n * period, 0.0, period)
  {
    if IsWhole(n) {
      var k := n.Floor;
      assert k as real == n;
      GridPoint(0.0, period, k);
      assert OnGrid(0.0 + k as real * period, 0.0, period);
      var t := n * period;
      assert t == 0.0 + k as real * period;
    }
  }

  /** "Apply loop": the requested number of measures (1 when the box is empty or zero) times the measure length. */
  function ApplyLoopLength(typed: Option<real>, measure: real): (len: real)
    requires measure > 0.0
    ensures len >= measure
    ensures typed.Some? && IsWhole(typed.value) && typed.value >= 1.0 ==> OnGrid(len, 0.0, measure)
    ensures typed.None? ==> len == measure
  {
    var n := MeasuresEntry(typed, 1.0);
    WholeMultipleOnGrid(n, measure);
    n * measure
  }

  /** The play button without a loop: the measures box (4 when empty or zero, at least 1) times the
      measure length. */
  function PlayLoopLength(typed: Option<real>, measure: real): (len: real)
    requires measure > 0.0
    ensures len >= measure
    ensures typed.None? ==> len == 4.0 * measure
  {
    var n := MeasuresEntry(typed, 4.0);
    AtLeastOnce(n, measure);
    n * measure
  }

  /** `ref + (Math.floor((now - ref) / period) + 1) * period`: the first point of the grid
      `ref + k * period` that lies strictly after `now`. */
  function NextBoundary(ref: real, now: real, period: real): (t: real)
    requires period > 0.0
    ensures now < t <= now + period
    ensures OnGrid(t, ref, period)
  {
    var f := Floor((now - ref) / period);
    var k := f + 1;
    FloorScale(now - ref, period);
    GridPoint(ref, period, k);
    calc { ref + k as real * period; == ref + f as real * period + period; }
    ref + k as real * period
  }

  /** No grid point strictly after `now` comes before `NextBoundary`. */
  lemma {:induction false} NextBoundaryIsLeast(ref: real, now: real, period: real, k: int)
    requires period > 0.0
    requires ref + k as real * period > now
    ensures NextBoundary(ref, now, period) <= ref + k as real * period
  {
    var t := NextBoundary(ref, now, period);
    GridIndex(t, ref, period);
    GridOrder(ref, period, ((t - ref) / period).Floor, k, t, ref + k as real * period);
  }

  /** Of two grid points less than one period apart, the earlier is at most the later. */
  lemma GridOrder(ref: real, period: real, a: int, b: int, x: real, y: real)
    requires period > 0.0 && x == ref + a as real * period && y == ref + b as real * period
    requires x - period < y
    ensures x <= y
  {
    GridDiff(ref, period, a, b, x, y);
    WithinOnePeriod(period, a - b, x, y);
  }

  /** Two grid points differ by a whole number of periods. */
  lemma GridDiff(ref: real, period: real, a: int, b: int, x: real, y: real)
    requires x == ref + a as real * period && y == ref + b as real * period
    ensures x - y == (a - b) as real * period
  {
  }

  /** A gap of `d` whole periods that is less than one period is not positive. */
  lemma WithinOnePeriod(period: real, d: int, x: real, y: real)
    requires period > 0.0 && x - y == d as real * period && x - period < y
    ensures x <= y
  {
    if d > 0 {
      MulLe(1.0, d as real, period);
    } else {
      MulLe(d as real, 0.0, period);
    }
  }

  /** `ref + Math.ceil((t - ref) / period) * period`: the first point of the grid at or after `t`. */
  function GridCeil(ref: real, t: real, period: real): (r: real)
    requires period > 0.0
    ensures t <= r < t + period
    ensures OnGrid(r, ref, period)
    ensures OnGrid(t, ref, period) ==> r == t
  {
    var c := Ceil((t - ref) / period);
    CeilScale(t - ref, period);
    GridPoint(ref, period, c);
    GridOnPoint(t, ref, period);
    ref + c as real * period
  }

  /** No grid point at or after `now` comes before `GridCeil`. */
  lemma GridCeilIsLeast(ref: real, now: real, t: real, period: real)
    requires period > 0.0 && OnGrid(t, ref, period) && now <= t
    ensures GridCeil(ref, now, period) <= t
  {
    var g := GridCeil(ref, now, period);
    GridIndex(t, ref, period);
    GridIndex(g, ref, period);
    GridOrder(ref, period, ((g - ref) / period).Floor, ((t - ref) / period).Floor, g, t);
  }

  /** A grid point stays on the grid `q` periods later. */
  lemma GridAfter(t: real, ref: real, period: real, q: int)
    requires period > 0.0 && OnGrid(t, ref, period)
    ensures OnGrid(t + q as real * period, ref, period)
  {
    GridIndex(t, ref, period);
    var k := ((t - ref) / period).Floor;
    var kq := k + q;
    GridPoint(ref, period, kq);
    calc { ref + kq as real * period; == ref + k as real * period + q as real * period; == t + q as real * period; }
  }

  /** The ceiled quotient times the divisor is the grid point at or above `a`. */
  lemma CeilScale(a: real, b: real)
    requires b > 0.0
    ensures Ceil(a / b) as real * b - b < a <= Ceil(a / b) as real * b
  {
    var x := a / b;
    ScaleBoundsBelow(x, Ceil(x) as real, b);
    calc { Ceil(x) as real * b - b; < x * b; == a; }
    calc { a; == x * b; <= Ceil(x) as real * b; }
  }

  /** On a grid point, the ceiled quotient is exact. */
  lemma GridOnPoint(t: real, ref: real, period: real)
    requires period > 0.0
    ensures OnGrid(t, ref, period) ==> ref + Ceil((t - ref) / period) as real * period == t
  {
    if OnGrid(t, ref, period) {
      GridIndex(t, ref, period);
      assert Ceil((t - ref) / period) == ((t - ref) / period).Floor;
    }
  }

  /** A point on the grid of a point of the grid of `ref` is on the grid of `ref`. */
  lemma {:induction false} GridTrans(x: real, y: real, ref: real, period: real)
    requires period > 0.0 && OnGrid(x, y, period) && OnGrid(y, ref, period)
    ensures OnGrid(x, ref, period)
  {
    GridIndex(x, y, period);
    var q := ((x - y) / period).Floor;
    GridAfter(y, ref, period, q);
    assert x == y + q as real * period;
    assert OnGrid(y + q as real * period, ref, period);
  }

  /** Two offsets within one period that both bring `t` back onto the same grid are equal. */
  lemma {:induction false} GridPhaseUnique(t: real, ref: real, period: real, p: real, q: real)
    requires period > 0.0 && 0.0 <= p < period && 0.0 <= q < period
    requires OnGrid(t - p, ref, period) && OnGrid(t - q, ref, period)
    ensures p == q
  {
    GridIndex(t - p, ref, period);
    GridIndex(t - q, ref, period);
    var a := ((t - p - ref) / period).Floor;
    var b := ((t - q - ref) / period).Floor;
    GridDiff(ref, period, a, b, t - p, t - q);
    GridDiff(ref, period, b, a, t - q, t - p);
    WithinOnePeriod(period, a - b, t - p, t - q);
    WithinOnePeriod(period, b - a, t - q, t - p);
  }

  /** `startPlayback`: the transport starts at the first whole multiple of the loop length after `now`. */
  function PlayStart(now: real, loopLen: real): (t0: real)
    requires loopLen > 0.0
    ensures now < t0 <= now + loopLen
    ensures OnGrid(t0, 0.0, loopLen)
  {
    NextBoundary(0.0, now, loopLen)
  }

  /** `startMetronome`: the first click is on the next measure boundary after `now`, counted from the
      loop start while playing and from `now` otherwise. */
  function MetronomeStart(now: real, playing: bool, startAt: real, measure: real): (t: real)
    requires measure > 0.0
    ensures now < t <= now + measure
    ensures playing ==> OnGrid(t, startAt, measure)
    ensures !playing ==> t == now + measure
  {
    var ref := if playing then startAt else now;
    assert !playing ==> Floor((now - ref) / measure) == 0;
    NextBoundary(ref, now, measure)
  }

  /** The record window chosen when recording starts over a playing loop. */
  datatype Window = Window(boundary: real, stopAt: real)

  /** `safeRecordStart` over a playing loop: the capture is aligned to the next loop start that leaves
      at least the pre-roll plus 40 ms, and it stops one loop length plus the tail after that. The
      elapsed time is JavaScript's `%`, so before the first loop start it is negative. */
  function RecordWindow(now: real, startAt: real, loopLen: real): (w: Window)
    requires loopLen > 0.0
    ensures now < w.boundary <= now + 2.0 * loopLen + PreRoll + BoundaryMargin
    ensures OnGrid(w.boundary, startAt, loopLen)
    ensures loopLen >= PreRoll + BoundaryMargin ==> w.boundary >= now + PreRoll + BoundaryMargin
    ensures w.stopAt == w.boundary + loopLen + Tail
  {
    var elapsed := Rem(now - startAt, loopLen);
    var toBoundary := loopLen - elapsed;
    var wait := if toBoundary < PreRoll + BoundaryMargin then toBoundary + loopLen else toBoundary;
    var d := now - startAt - elapsed;
    GridNext(d, 0.0, loopLen);
    GridNext(d + loopLen, 0.0, loopLen);
    var g := if toBoundary < PreRoll + BoundaryMargin then d + loopLen + loopLen else d + loopLen;
    GridShift(g, startAt, loopLen);
    assert startAt + g == now + wait;
    Window(now + wait, now + wait + loopLen + Tail)
  }

  /** The playback offset of a buffer applied while playing, as written: `(now - startAt) % loopLen`. */
  function ElapsedAsWritten(now: real, startAt: real, loopLen: real): (e: real)
    requires loopLen > 0.0
    ensures -loopLen < e < loopLen
    ensures OnGrid(now - startAt - e, 0.0, loopLen)
  {
    Rem(now - startAt, loopLen)
  }

  /** Between pressing play and the first loop start (`startAt` is in the future), the written
      offset is negative, which an audio source's `start(when, offset)` does not accept. */
  lemma ElapsedNegativeBeforeFirstStart(now: real, startAt: real, loopLen: real)
    requires loopLen > 0.0
    requires startAt - loopLen < now < startAt
    ensures ElapsedAsWritten(now, startAt, loopLen) == now - startAt < 0.0
  {
    var a := now - startAt;
    QuotientInside(a, loopLen);
    assert Trunc(a / loopLen) == 0;
  }

  /** A non-negative dividend has a non-negative quotient. */
  lemma NonNegativeQuotient(a: real, b: real)
    requires b > 0.0
    ensures a >= 0.0 ==> a / b >= 0.0
  {
    if a >= 0.0 {
      assert a == (a / b) * b;
    }
  }

  /** The corrected offset: the loop phase `now - startAt` reduced into `[0, loopLen)`. */
  function LoopPhase(now: real, startAt: real, loopLen: real): (p: real)
    requires loopLen > 0.0
    ensures 0.0 <= p < loopLen
    ensures OnGrid(now - p, startAt, loopLen)
    ensures now >= startAt ==> p == ElapsedAsWritten(now, startAt, loopLen)
  {
    var p := Phase(now - startAt, loopLen);
    GridShift(now - startAt - p, startAt, loopLen);
    assert startAt + (now - startAt - p) == now - p;
    NonNegativeQuotient(now - startAt, loopLen);
    p
  }

  /** Moving the loop's reference by whole loop lengths does not move the phase. */
  lemma {:induction false} PhaseOfShiftedStart(now: real, startAt: real, other: real, loopLen: real)
    requires loopLen > 0.0 && OnGrid(other, startAt, loopLen)
    ensures LoopPhase(now, other, loopLen) == LoopPhase(now, startAt, loopLen)
  {
    var p := LoopPhase(now, other, loopLen);
    var q := LoopPhase(now, startAt, loopLen);
    GridTrans(now - p, other, startAt, loopLen);
    GridPhaseUnique(now, startAt, loopLen, p, q);
  }
}
