/** Sample-level buffer conforming: down-mixing with edge fades, fitting to a loop length,
    stretching, normalising before playback, and the overdub head trim.
    Samples are idealised reals (Float32 rounding is not modelled). */
module Audio {
  import opened JsNum

  /** A mono buffer: its samples and its sample rate. */
  datatype Buffer = Buffer(data: seq<real>, rate: nat)

  /** A decoded capture: channel 0 and, for a multi-channel capture, channel 1. */
  datatype Decoded = Decoded(left: seq<real>, right: Option<seq<real>>, rate: nat)

  /** A buffer the browser can hand over: at least one sample, a positive rate, channels of equal length. */
  predicate WellFormed(d: Decoded) {
    |d.left| >= 1 && d.rate >= 1 && (d.right.Some? ==> |d.right.value| == |d.left|)
  }

  /** `buffer.duration`. */
  function Duration(b: Buffer): (s: real)
    requires b.rate >= 1
    ensures s >= 0.0
  {
    |b.data| as real / b.rate as real
  }

  /** The fade length of a recording, in seconds. */
  const RecordFade: real := 0.004
  /** The fade length of fitting and stretching, in seconds. */
  const EdgeFade: real := 0.003
  /** `normalizeToLoop` keeps a buffer whose duration is this close to the loop length. */
  const FitTolerance: real := 0.001

  /** `Math.max(1, Math.floor(sec * sr))`: a fade is at least one sample long. */
  function FadeLength(sec: real, rate: nat): (f: nat)
    ensures f >= 1
    ensures sec * rate as real >= 1.0 ==> f as real <= sec * rate as real < f as real + 1.0
  {
    var x := Floor(sec * rate as real);
    if x < 1 then 1 else x
  }

  /** The gain of fade step `k` of `f`: `k / f`. */
  function Gain(k: nat, f: nat): (g: real)
    requires f >= 1
    ensures 0.0 <= g && (k < f ==> g < 1.0)
  {
    k as real / f as real
  }

  /** `o[i] *= t` on a typed array, as a value: a write outside the array is ignored. */
  function ScaleAt(s: seq<real>, i: int, t: real): (r: seq<real>)
    ensures |r| == |s|
  {
    if 0 <= i < |s| then s[i := s[i] * t] else s
  }

  lemma ScaleAtIs(s: seq<real>, i: int, t: real)
    ensures ScaleAt(s, i, t) == if 0 <= i < |s| then s[i := s[i] * t] else s
  {
  }

  lemma ScaleAtAt(s: seq<real>, i: int, t: real, j: nat)
    requires j < |s|
    ensures ScaleAt(s, i, t)[j] == if j == i then s[j] * t else s[j]
  {
  }

  /** `o[i] *= t` on a typed array: a write outside the array is ignored. */
  method ScaleIn(o: array<real>, i: int, t: real)
    modifies o
    ensures o[..] == ScaleAt(old(o[..]), i, t)
  {
    ghost var s0 := o[..];
    ScaleAtIs(s0, i, t);
    if 0 <= i < o.Length {
      var v := o[i] * t;
      assert v == s0[i] * t;
      o[i] := v;
      assert o[..] == s0[i := v];
    }
  }

  /** `s` after the first `k` passes of a fade loop over both ends (`toMonoWithFades`, `fitOrScale`):
      pass `i` scales sample `i` and then sample `len - 1 - i` by `i / f`. */
  function FadeBoth(s: seq<real>, k: nat, f: nat): (r: seq<real>)
    requires f >= 1
    ensures |r| == |s|
    decreases k, 1
  {
    if k == 0 then s else ScaleAt(FadeFront(s, k, f), |s| - k, Gain(k - 1, f))
  }

  /** Halfway through pass `k - 1` of the two-ended fade: its front write done, its back write not. */
  function FadeFront(s: seq<real>, k: nat, f: nat): (r: seq<real>)
    requires f >= 1 && k >= 1
    ensures |r| == |s|
    decreases k, 0
  {
    ScaleAt(FadeBoth(s, k - 1, f), k - 1, Gain(k - 1, f))
  }

  lemma FadeFrontStep(s: seq<real>, k: nat, f: nat)
    requires f >= 1
    ensures FadeFront(s, k + 1, f) == ScaleAt(FadeBoth(s, k, f), k, Gain(k, f))
  {
  }

  lemma FadeBackStep(s: seq<real>, k: nat, f: nat)
    requires f >= 1
    ensures FadeBoth(s, k + 1, f) == ScaleAt(FadeFront(s, k + 1, f), |s| - (k + 1), Gain(k, f))
  {
  }

  /** Sample `j` after pass `k` of the two-ended fade, from sample `j` before it. */
  lemma FadeBothPass(s: seq<real>, k: nat, f: nat, j: nat)
    requires f >= 1 && k >= 1 && j < |s|
    ensures var p := FadeBoth(s, k - 1, f)[j];
      var a := if j == k - 1 then p * Gain(k - 1, f) else p;
      FadeBoth(s, k, f)[j] == if j == |s| - k then a * Gain(k - 1, f) else a
  {
    var g := Gain(k - 1, f);
    ScaleAtAt(FadeBoth(s, k - 1, f), k - 1, g, j);
    ScaleAtAt(FadeFront(s, k, f), |s| - k, g, j);
  }

  /** The fade leaves every sample at least `k` from both ends untouched. */
  lemma {:induction false} FadeBothInterior(s: seq<real>, k: nat, f: nat, j: nat)
    requires f >= 1 && k <= j < |s| - k
    ensures FadeBoth(s, k, f)[j] == s[j]
  {
    if k > 0 {
      FadeBothInterior(s, k - 1, f, j);
      FadeBothPass(s, k, f, j);
    }
  }

  /** Outside the fade-out, sample `j < k` of the fade-in has gain `j / f`. */
  lemma {:induction false} FadeBothHead(s: seq<real>, k: nat, f: nat, j: nat)
    requires f >= 1 && j < k && j < |s| - k
    ensures FadeBoth(s, k, f)[j] == s[j] * Gain(j, f)
  {
    FadeBothPass(s, k, f, j);
    if j == k - 1 {
      FadeBothInterior(s, k - 1, f, j);
    } else {
      FadeBothHead(s, k - 1, f, j);
    }
  }

  /** Outside the fade-in, sample `j` that is `i < k` from the end has gain `i / f`. */
  lemma {:induction false} FadeBothTail(s: seq<real>, k: nat, f: nat, j: nat)
    requires f >= 1 && k <= j < |s| && |s| - 1 - j < k
    ensures FadeBoth(s, k, f)[j] == s[j] * Gain(|s| - 1 - j, f)
  {
    FadeBothPass(s, k, f, j);
    if j == |s| - k {
      FadeBothInterior(s, k - 1, f, j);
    } else {
      FadeBothTail(s, k - 1, f, j);
    }
  }

  /** After the first pass the first and the last sample are silent, and stay so. */
  lemma {:induction false} FadeBothEdgesSilent(s: seq<real>, k: nat, f: nat)
    requires f >= 1 && k >= 1 && |s| >= 1
    ensures FadeBoth(s, k, f)[0] == 0.0 && FadeBoth(s, k, f)[|s| - 1] == 0.0
  {
    FadeBothPass(s, k, f, 0);
    FadeBothPass(s, k, f, |s| - 1);
    if k > 1 {
      FadeBothEdgesSilent(s, k - 1, f);
    }
  }

  /** A gain in [0, 1] never amplifies. */
  lemma Attenuated(x: real, g: real)
    requires 0.0 <= g <= 1.0
    ensures Abs(x * g) <= Abs(x)
  {
    var ax := Abs(x);
    assert Abs(x * g) == ax * g;
    if ax > 0.0 {
      MulLe(g, 1.0, ax);
    }
  }

  /** Scaling one sample by a gain in [0, 1] makes no sample louder. */
  lemma ScaleAtAttenuates(s: seq<real>, i: int, t: real, j: nat)
    requires 0.0 <= t <= 1.0 && j < |s|
    ensures Abs(ScaleAt(s, i, t)[j]) <= Abs(s[j])
  {
    ScaleAtAt(s, i, t, j);
    Attenuated(s[j], t);
  }

  /** No pass of a fade loop of length `f` makes a sample louder. */
  lemma {:induction false} FadeBothAttenuates(s: seq<real>, k: nat, f: nat, j: nat)
    requires f >= 1 && k <= f && j < |s|
    ensures Abs(FadeBoth(s, k, f)[j]) <= Abs(s[j])
  {
    if k > 0 {
      FadeBothAttenuates(s, k - 1, f, j);
      var t := Gain(k - 1, f);
      ScaleAtAttenuates(FadeBoth(s, k - 1, f), k - 1, t, j);
      ScaleAtAttenuates(FadeFront(s, k, f), |s| - k, t, j);
    }
  }

  /** `s` after the first `k` passes of `fitBufferToLoop`'s fade loop: pass `i` scales sample
      `len - 1 - i` by `i / f`. */
  function FadeTail(s: seq<real>, k: nat, f: nat): (r: seq<real>)
    requires f >= 1
    ensures |r| == |s|
  {
    if k == 0 then s
    else ScaleAt(FadeTail(s, k - 1, f), |s| - k, Gain(k - 1, f))
  }

  lemma FadeTailStep(s: seq<real>, k: nat, f: nat, back: int)
    requires f >= 1 && back == |s| - 1 - k
    ensures FadeTail(s, k + 1, f) == ScaleAt(FadeTail(s, k, f), back, Gain(k, f))
  {
  }

  /** The tail fade leaves every sample more than `k` from the end untouched and gives sample
      `i < k` from the end gain `i / f`. */
  lemma {:induction false} FadeTailAt(s: seq<real>, k: nat, f: nat, j: nat)
    requires f >= 1 && j < |s|
    ensures |s| - 1 - j >= k ==> FadeTail(s, k, f)[j] == s[j]
    ensures |s| - 1 - j < k ==> FadeTail(s, k, f)[j] == s[j] * Gain(|s| - 1 - j, f)
  {
    if k > 0 {
      FadeTailAt(s, k - 1, f, j);
      ScaleAtAt(FadeTail(s, k - 1, f), |s| - k, Gain(k - 1, f), j);
    }
  }

  /** One sample of the down-mix: channel 0 of a mono capture, the average of channels 0 and 1 otherwise. */
  function MixAt(d: Decoded, j: nat): real
    requires WellFormed(d) && j < |d.left|
  {
    if d.right.None? then d.left[j] else 0.5 * (d.left[j] + d.right.value[j])
  }

  /** The fade loop over both ends of `o`, `f` passes: pass `k` scales sample `k` and then sample
      `o.length - 1 - k` by `k / f`. */
  method FadeEnds(o: array<real>, f: nat)
    requires f >= 1
    modifies o
    ensures o[..] == FadeBoth(old(o[..]), f, f)
  {
    ghost var s := o[..];
    for k := 0 to f
      invariant o[..] == FadeBoth(s, k, f)
    {
      var t := Gain(k, f);
      ScaleIn(o, k, t);
      FadeFrontStep(s, k, f);
      ScaleIn(o, o.Length - 1 - k, t);
      FadeBackStep(s, k, f);
    }
  }

  /** The down-mixed channel before any fade. */
  function Mix(d: Decoded): (m: seq<real>)
    requires WellFormed(d)
    ensures |m| == |d.left| && forall j :: 0 <= j < |m| ==> m[j] == MixAt(d, j)
  {
    seq(|d.left|, j requires 0 <= j < |d.left| => MixAt(d, j))
  }

  /** `toMonoWithFades`: the down-mix after the whole fade loop over both ends. */
  function FadedMono(d: Decoded, sec: real): (b: Buffer)
    requires WellFormed(d)
    ensures |b.data| == |d.left| && b.rate == d.rate
  {
    Buffer(FadeBoth(Mix(d), FadeLength(sec, d.rate), FadeLength(sec, d.rate)), d.rate)
  }

  /** `toMonoWithFades`: fills the output channel, then runs the fade loop over both ends. */
  method ToMonoWithFades(d: Decoded, sec: real) returns (b: Buffer)
    requires WellFormed(d)
    ensures b == FadedMono(d, sec)
  {
    var len := |d.left|;
    var o := new real[len];
    for i := 0 to len
      invariant o[..i] == Mix(d)[..i]
    {
      if d.right.None? {
        o[i] := d.left[i];
      } else {
        o[i] := 0.5 * (d.left[i] + d.right.value[i]);
      }
    }
    assert o[..] == o[..len];
    assert o[..] == Mix(d);
    var f := FadeLength(sec, d.rate);
    FadeEnds(o, f);
    b := Buffer(o[..], d.rate);
  }

  /** A recording starts and ends on silence and is nowhere louder than the down-mix. */
  lemma FadedMonoQuiet(d: Decoded, sec: real, j: nat)
    requires WellFormed(d) && j < |d.left|
    ensures var o := FadedMono(d, sec).data;
      o[0] == 0.0 && o[|o| - 1] == 0.0 && Abs(o[j]) <= Abs(MixAt(d, j))
  {
    var f := FadeLength(sec, d.rate);
    var m := Mix(d);
    assert FadedMono(d, sec).data == FadeBoth(m, f, f);
    FadeBothEdgesSilent(m, f, f);
    FadeBothAttenuates(m, f, f, j);
  }

  /** A recording keeps the down-mix outside the fades. */
  lemma FadedMonoKeepsInterior(d: Decoded, sec: real, j: nat)
    requires WellFormed(d) && FadeLength(sec, d.rate) <= j < |d.left| - FadeLength(sec, d.rate)
    ensures FadedMono(d, sec).data[j] == MixAt(d, j)
  {
    var f := FadeLength(sec, d.rate);
    FadeBothInterior(Mix(d), f, f, j);
  }

  /** A recording fades in linearly: sample `j < f` has gain `j / f`. */
  lemma FadedMonoFadeIn(d: Decoded, sec: real, j: nat)
    requires WellFormed(d) && j < FadeLength(sec, d.rate) && j < |d.left| - FadeLength(sec, d.rate)
    ensures FadedMono(d, sec).data[j] == MixAt(d, j) * Gain(j, FadeLength(sec, d.rate))
  {
    var f := FadeLength(sec, d.rate);
    FadeBothHead(Mix(d), f, f, j);
  }

  /** A recording fades out linearly: the sample `i < f` from the end has gain `i / f`. */
  lemma FadedMonoFadeOut(d: Decoded, sec: real, j: nat)
    requires WellFormed(d) && FadeLength(sec, d.rate) <= j < |d.left|
    requires |d.left| - 1 - j < FadeLength(sec, d.rate)
    ensures FadedMono(d, sec).data[j] == MixAt(d, j) * Gain(|d.left| - 1 - j, FadeLength(sec, d.rate))
  {
    var f := FadeLength(sec, d.rate);
    FadeBothTail(Mix(d), f, f, j);
  }

  /** `fitBufferToLoop`'s output length: `floor(loopLen * sr)` samples. */
  function LoopSamples(loopLen: real, rate: nat): int {
    Floor(loopLen * rate as real)
  }

  /** The input copied into a zeroed array of `want` samples: its prefix, zero past its end. */
  function Padded(data: seq<real>, want: nat): (r: seq<real>)
    ensures |r| == want
    ensures forall j :: 0 <= j < want ==> r[j] == if j < |data| then data[j] else 0.0
  {
    seq(want, j requires 0 <= j < want => if j < |data| then data[j] else 0.0)
  }

  /** `fitBufferToLoop`: the first `floor(loopLen * sr)` samples of the input, zero beyond its end,
      after the fade loop over the tail. `None` when the length is below one sample, where creating
      the buffer fails. */
  function Fitted(b: Buffer, loopLen: real): (r: Option<Buffer>)
    ensures r.None? <==> LoopSamples(loopLen, b.rate) < 1
    ensures r.Some? ==> |r.value.data| == LoopSamples(loopLen, b.rate) && r.value.rate == b.rate
  {
    var want := LoopSamples(loopLen, b.rate);
    var f := FadeLength(EdgeFade, b.rate);
    if want < 1 then None else Some(Buffer(FadeTail(Padded(b.data, want), f, f), b.rate))
  }

  /** `fitBufferToLoop`: a zeroed output, the input prefix copied in, then the fade loop over the tail. */
  method FitBufferToLoop(b: Buffer, loopLen: real) returns (r: Option<Buffer>)
    ensures r == Fitted(b, loopLen)
  {
    var want := LoopSamples(loopLen, b.rate);
    if want < 1 {
      return None;
    }
    var o := new real[want](_ => 0.0);
    var n := Min(want, |b.data|);
    for j := 0 to n
      invariant forall m :: 0 <= m < want ==> o[m] == if m < j then b.data[m] else 0.0
    {
      o[j] := b.data[j];
    }
    assert o[..] == Padded(b.data, want);
    var f := FadeLength(EdgeFade, b.rate);
    for i := 0 to f
      invariant o[..] == FadeTail(Padded(b.data, want), i, f)
    {
      var back := want - 1 - i;
      ScaleIn(o, back, Gain(i, f));
      FadeTailStep(Padded(b.data, want), i, f, back);
    }
    r := Some(Buffer(o[..], b.rate));
  }

  /** A fitted buffer is the input prefix outside the fade, zero past the input's end, linearly
      faded over its last `f` samples, and silent on its last sample. */
  lemma FittedShape(b: Buffer, loopLen: real, j: nat)
    requires Fitted(b, loopLen).Some? && j < LoopSamples(loopLen, b.rate)
    ensures var o := Fitted(b, loopLen).value.data;
      var f := FadeLength(EdgeFade, b.rate);
      o[|o| - 1] == 0.0
      && (j < |o| - f && j < |b.data| ==> o[j] == b.data[j])
      && (j >= |b.data| ==> o[j] == 0.0)
      && (j >= |o| - f && j < |b.data| ==> o[j] == b.data[j] * Gain(|o| - 1 - j, f))
  {
    var want := LoopSamples(loopLen, b.rate);
    var f := FadeLength(EdgeFade, b.rate);
    var p := Padded(b.data, want);
    var o := FadeTail(p, f, f);
    assert Fitted(b, loopLen).value.data == o;
    FadeTailAt(p, f, f, j);
    FadeTailAt(p, f, f, want - 1);
    assert Gain(0, f) == 0.0;
    assert o[want - 1] == p[want - 1] * 0.0;
  }

  /** `normalizeToLoop`: a buffer within a millisecond of the loop length is played as it is;
      any other is fitted first. */
  function NormalizeToLoop(b: Buffer, loopLen: real): (r: Option<Buffer>)
    requires b.rate >= 1
    ensures Abs(Duration(b) - loopLen) < FitTolerance ==> r == Some(b)
    ensures Abs(Duration(b) - loopLen) >= FitTolerance ==> r == Fitted(b, loopLen)
  {
    if Abs(Duration(b) - loopLen) < FitTolerance then Some(b) else Fitted(b, loopLen)
  }

  /** At any rate of 1000 Hz or more a fitted buffer is within a millisecond of the loop length, so
      starting playback plays it as it is instead of fading it a second time. */
  lemma {:induction false} NormalizeAfterFitIsIdentity(b: Buffer, loopLen: real)
    requires b.rate >= 1000 && Fitted(b, loopLen).Some?
    ensures NormalizeToLoop(Fitted(b, loopLen).value, loopLen) == Fitted(b, loopLen)
  {
    var o := Fitted(b, loopLen).value;
    var sr := b.rate as real;
    var want := LoopSamples(loopLen, b.rate);
    assert want as real <= loopLen * sr < want as real + 1.0;
    var d := Duration(o);
    assert d == want as real / sr;
    assert d * sr == want as real;
    var e := loopLen - d;
    assert e * sr == loopLen * sr - want as real;
    assert 0.0 <= e * sr < 1.0;
    WithinOneSample(e, sr);
  }

  /** Less than one sample at 1000 Hz or more is less than a millisecond. */
  lemma WithinOneSample(e: real, sr: real)
    requires sr >= 1000.0 && 0.0 <= e * sr < 1.0
    ensures 0.0 <= e < FitTolerance
  {
    var p := e * sr;
    assert e == p / sr;
    assert 1.0 / sr <= FitTolerance;
  }

  /** The apply-loop fit mode: `'trim'` cuts or pads, anything else stretches. */
  datatype FitMode = Trim | Stretch

  /** Linear interpolation between the samples either side of position `x`. */
  function Interp(data: seq<real>, x: real): (v: real)
    requires 0.0 <= x < |data| as real
  {
    var i0 := Floor(x);
    var i1 := Min(|data| - 1, i0 + 1);
    var fr := x - i0 as real;
    data[i0] * (1.0 - fr) + data[i1] * fr
  }

  /** At a whole position the interpolation is that sample. */
  lemma InterpAtWhole(data: seq<real>, k: nat)
    requires k < |data|
    ensures Interp(data, k as real) == data[k]
  {
  }

  /** A point a fraction `fr` of the way from `a` to `c` lies between them. */
  lemma Between(a: real, c: real, fr: real)
    requires 0.0 <= fr <= 1.0
    ensures MinR(a, c) <= a * (1.0 - fr) + c * fr <= MaxR(a, c)
  {
    var m := c - a;
    var g := m * fr;
    assert a * (1.0 - fr) + c * fr == a + g;
    if m > 0.0 {
      MulLe(fr, 1.0, m);
      assert 0.0 <= g <= m;
    } else if m < 0.0 {
      MulLe(fr, 1.0, -m);
      assert m <= g <= 0.0;
    }
  }

  /** The interpolated value lies between the two samples it reads. */
  lemma {:induction false} InterpBetween(data: seq<real>, x: real)
    requires 0.0 <= x < |data| as real
    ensures var i0 := Floor(x);
      var i1 := Min(|data| - 1, i0 + 1);
      MinR(data[i0], data[i1]) <= Interp(data, x) <= MaxR(data[i0], data[i1])
  {
    var i0 := Floor(x);
    Between(data[i0], data[Min(|data| - 1, i0 + 1)], x - i0 as real);
  }

  /** The stretched length: `max(1, floor(len * ratio))` with `ratio = newLen / duration`. */
  function StretchLength(b: Buffer, newLen: real): (n: nat)
    requires b.rate >= 1 && |b.data| >= 1 && newLen > 0.0
    ensures n >= 1
  {
    var ratio := newLen / Duration(b);
    var x := Floor(|b.data| as real * ratio);
    if x < 1 then 1 else x
  }

  /** Every output position of a stretch reads inside the input. */
  lemma StretchReadsInside(b: Buffer, newLen: real, n: nat)
    requires b.rate >= 1 && |b.data| >= 1 && newLen > 0.0 && n < StretchLength(b, newLen)
    ensures 0.0 <= n as real / (newLen / Duration(b)) < |b.data| as real
  {
    var ratio := newLen / Duration(b);
    var len := |b.data| as real;
    assert Duration(b) > 0.0;
    assert ratio > 0.0;
    var x := n as real / ratio;
    assert x * ratio == n as real;
    if n == 0 {
    } else {
      assert n as real < len * ratio;
      if x >= len {
        MulLe(len, x, ratio);
      }
    }
  }

  /** The stretched sample `n` before the edge fades: the input interpolated at `n / ratio`. */
  function StretchAt(b: Buffer, newLen: real, n: nat): real
    requires b.rate >= 1 && |b.data| >= 1 && newLen > 0.0 && n < StretchLength(b, newLen)
  {
    StretchReadsInside(b, newLen, n);
    Interp(b.data, n as real / (newLen / Duration(b)))
  }

  /** The resampled channel before the edge fades. */
  function Resampled(b: Buffer, newLen: real): (r: seq<real>)
    requires b.rate >= 1 && |b.data| >= 1 && newLen > 0.0
    ensures |r| == StretchLength(b, newLen)
    ensures forall n :: 0 <= n < |r| ==> r[n] == StretchAt(b, newLen, n)
  {
    seq(StretchLength(b, newLen), n requires 0 <= n < StretchLength(b, newLen) => StretchAt(b, newLen, n))
  }

  /** `fitOrScale` in stretch mode: resample by linear interpolation to the new length, then fade
      both ends over `max(1, floor(0.003 * sr))` samples. */
  function Stretched(b: Buffer, newLen: real): (r: Buffer)
    requires b.rate >= 1 && |b.data| >= 1 && newLen > 0.0
    ensures |r.data| == StretchLength(b, newLen) && r.rate == b.rate
  {
    var f := FadeLength(EdgeFade, b.rate);
    Buffer(FadeBoth(Resampled(b, newLen), f, f), b.rate)
  }

  /** `fitOrScale`: trim mode fits, stretch mode resamples. */
  function Conformed(b: Buffer, newLen: real, mode: FitMode): (r: Option<Buffer>)
    requires b.rate >= 1 && |b.data| >= 1 && newLen > 0.0
    ensures mode == Trim ==> r == Fitted(b, newLen)
    ensures mode == Stretch ==> r == Some(Stretched(b, newLen))
  {
    if mode == Trim then Fitted(b, newLen) else Some(Stretched(b, newLen))
  }

  /** One stretched sample, computed as `fitOrScale` does. */
  method InterpolateAt(b: Buffer, newLen: real, n: nat) returns (v: real)
    requires b.rate >= 1 && |b.data| >= 1 && newLen > 0.0 && n < StretchLength(b, newLen)
    ensures v == StretchAt(b, newLen, n)
  {
    StretchReadsInside(b, newLen, n);
    var ratio := newLen / Duration(b);
    var x := n as real / ratio;
    var i0 := Floor(x);
    var i1 := Min(|b.data| - 1, i0 + 1);
    var fr := x - i0 as real;
    v := b.data[i0] * (1.0 - fr) + b.data[i1] * fr;
  }

  /** `fitOrScale`: the interpolation loop over the output, then the fade loop over both ends. */
  method FitOrScale(b: Buffer, newLen: real, mode: FitMode) returns (r: Option<Buffer>)
    requires b.rate >= 1 && |b.data| >= 1 && newLen > 0.0
    ensures r == Conformed(b, newLen, mode)
  {
    if mode == Trim {
      r := FitBufferToLoop(b, newLen);
      return;
    }
    var outLen := StretchLength(b, newLen);
    var o := new real[outLen];
    for n := 0 to outLen
      invariant o[..n] == Resampled(b, newLen)[..n]
    {
      o[n] := InterpolateAt(b, newLen, n);
    }
    assert o[..] == o[..outLen];
    assert o[..] == Resampled(b, newLen);
    var f := FadeLength(EdgeFade, b.rate);
    FadeEnds(o, f);
    r := Some(Buffer(o[..], b.rate));
  }

  /** Ideally a stretch yields `max(1, floor(newLen * sr))` samples, the same count a fit yields. */
  lemma {:induction false} StretchLengthMatchesLoop(b: Buffer, newLen: real)
    requires b.rate >= 1 && |b.data| >= 1 && newLen > 0.0
    ensures StretchLength(b, newLen) == Max(1, LoopSamples(newLen, b.rate))
  {
    var len := |b.data| as real;
    var sr := b.rate as real;
    var d := Duration(b);
    assert d * sr == len;
    var ratio := newLen / d;
    assert ratio * d == newLen;
    calc {
      len * ratio;
      == d * sr * ratio;
      == (ratio * d) * sr;
      == newLen * sr;
    }
  }

  /** Stretching a buffer to its own duration resamples every sample to itself. */
  lemma {:induction false} ResampledToSameLength(b: Buffer, n: nat)
    requires b.rate >= 1 && |b.data| >= 1 && n < |b.data|
    ensures StretchLength(b, Duration(b)) == |b.data|
    ensures StretchAt(b, Duration(b), n) == b.data[n]
  {
    var d := Duration(b);
    assert d > 0.0;
    var ratio := d / d;
    assert ratio == 1.0;
    assert |b.data| as real * ratio == |b.data| as real;
    assert n as real / ratio == n as real;
    InterpAtWhole(b.data, n);
  }

  /** Stretching a buffer to its own duration keeps every sample outside the fades. */
  lemma {:induction false} StretchToSameLengthKeepsInterior(b: Buffer, n: nat)
    requires b.rate >= 1 && |b.data| >= 1
    requires FadeLength(EdgeFade, b.rate) <= n < |b.data| - FadeLength(EdgeFade, b.rate)
    ensures |Stretched(b, Duration(b)).data| == |b.data|
    ensures Stretched(b, Duration(b)).data[n] == b.data[n]
  {
    var d := Duration(b);
    ResampledToSameLength(b, n);
    var m := Resampled(b, d);
    assert m[n] == b.data[n];
    var f := FadeLength(EdgeFade, b.rate);
    FadeBothInterior(m, f, f, n);
    assert Stretched(b, d).data == FadeBoth(m, f, f);
  }

  /** `pre = max(0, floor((boundary - startActual) * sr))`: the samples captured before the boundary. */
  function OverdubPre(b: Buffer, startActual: real, boundary: real): (pre: nat)
    ensures startActual <= boundary ==> pre as real <= (boundary - startActual) * b.rate as real < pre as real + 1.0
  {
    var x := Floor((boundary - startActual) * b.rate as real);
    if x < 0 then 0 else x
  }

  /** The overdub head trim: drop the `pre` samples captured before the loop boundary (all of them
      if the capture is shorter), keep at most `want = max(1, floor(loopLen * sr))` samples and
      zero-pad to `want`. A missing loop length counts as 0. */
  function OverdubTrim(b: Buffer, startActual: real, boundary: real, loopLen: Option<real>): (r: Buffer)
    ensures r.rate == b.rate
    ensures |r.data| == Max(1, LoopSamples(if loopLen.Some? then loopLen.value else 0.0, b.rate))
    ensures forall k :: 0 <= k < |r.data| ==>
              r.data[k] == (if OverdubPre(b, startActual, boundary) + k < |b.data| then b.data[OverdubPre(b, startActual, boundary) + k] else 0.0)
  {
    var pre := OverdubPre(b, startActual, boundary);
    var want := Max(1, LoopSamples(if loopLen.Some? then loopLen.value else 0.0, b.rate));
    var rest := b.data[Min(pre, |b.data|)..];
    var n := Min(want, |rest|);
    Buffer(rest[..n] + seq(want - n, _ => 0.0), b.rate)
  }

  /** An overdub armed exactly on a boundary keeps the first `want` captured samples. */
  lemma OverdubOnBoundaryKeepsHead(b: Buffer, t: real, loopLen: Option<real>, k: nat)
    requires k < |OverdubTrim(b, t, t, loopLen).data| && k < |b.data|
    ensures OverdubTrim(b, t, t, loopLen).data[k] == b.data[k]
  {
    assert OverdubPre(b, t, t) == 0;
  }
}
