/** Per-track volume, mute and solo: the gain a track's gain node carries is its
    volume slider times a gate that is closed by mute, or by another track's
    solo (js/looper.js:576-580, the slider at 91 and 110, the node at 178). */

module Mix {
  import opened JsNum

  /** The default slider position and the gain a new gain node starts with. */
  const DefaultVolume: real := 0.9

  /** `anySolo`: some track is soloed. */
  predicate AnySolo(solo: seq<bool>) {
    exists k :: 0 <= k < |solo| && solo[k]
  }

  /** The gate of `refreshGains`: 0 when muted, else in solo mode 1 only
      for soloed tracks, else 1. */
  function Gate(muted: bool, soloMode: bool, solo: bool): (g: real)
    ensures g == 0.0 || g == 1.0
    ensures g == 1.0 <==> !muted && (!soloMode || solo)
  {
    if muted then 0.0 else if soloMode then (if solo then 1.0 else 0.0) else 1.0
  }

  /** The gain `setVolume` writes, as the product it computes. */
  function VolumeGain(v: real, muted: bool, soloMode: bool, solo: bool): real {
    v * (if muted then 0.0 else 1.0) * (if soloMode then (if solo then 1.0 else 0.0) else 1.0)
  }

  /** The two code paths agree on the gate: `setVolume`'s product is the
      volume times `refreshGains`'s gate. */
  lemma VolumeGainIsGated(v: real, muted: bool, soloMode: bool, solo: bool)
    ensures VolumeGain(v, muted, soloMode, solo) == v * Gate(muted, soloMode, solo)
  {
    if muted {
      assert v * 0.0 == 0.0;
    }
  }

  /** `Number(vol) || 1`: a slider reading 0 counts as 1. */
  function VolumeOrOne(v: real): (r: real)
    ensures v != 0.0 ==> r == v
    ensures v == 0.0 ==> r == 1.0
  {
    if v == 0.0 then 1.0 else v
  }

  /** The gain `refreshGains` writes, as written: the slider with 0 read as 1. */
  function RefreshGainAsWritten(v: real, muted: bool, soloMode: bool, solo: bool): real {
    VolumeOrOne(v) * Gate(muted, soloMode, solo)
  }

  /** The gain `refreshGains` evidently means: the slider's own value. */
  function RefreshGain(v: real, muted: bool, soloMode: bool, solo: bool): (g: real)
    ensures g == VolumeGain(v, muted, soloMode, solo)
  {
    VolumeGainIsGated(v, muted, soloMode, solo);
    v * Gate(muted, soloMode, solo)
  }

  /** As written, a track whose slider was pulled to 0 (silent after
      `setVolume`) plays at full gain after any mute or solo toggle. */
  lemma SilencedSliderComesBackAsWritten()
    ensures VolumeGain(0.0, false, false, false) == 0.0
    ensures RefreshGainAsWritten(0.0, false, false, false) == 1.0
  {
  }

  /** Corrected, a refresh leaves every gate-open track at its slider value,
      0 included, as `setVolume` does. */
  lemma RefreshKeepsSliderValue(v: real, muted: bool, soloMode: bool, solo: bool)
    requires Gate(muted, soloMode, solo) == 1.0
    ensures RefreshGain(v, muted, soloMode, solo) == v
    ensures RefreshGain(v, muted, soloMode, solo) == VolumeGain(v, muted, soloMode, solo)
  {
  }

  /** The mixer part of the track list: flags, slider readings and, once
      the audio graph exists, each track's gain-node value (`None` before). */
  class Mixer {
    var muted: seq<bool>
    var solo: seq<bool>
    var slider: seq<real>
    var gain: seq<Option<real>>

    ghost predicate Valid()
      reads this
    {
      |muted| == |solo| == |slider| == |gain|
    }

    /** The gate of track `k` under the current solo mode. */
    function GateOf(k: nat): (g: real)
      reads this
      requires Valid() && k < |gain|
      ensures g == 0.0 || g == 1.0
    {
      Gate(muted[k], AnySolo(solo), solo[k])
    }

    /** Every gain node carries its slider value times its gate. */
    ghost predicate Consistent()
      reads this
      requires Valid()
    {
      forall k :: 0 <= k < |gain| && gain[k].Some? ==> gain[k].value == slider[k] * GateOf(k)
    }

    /** The rows as first built: unmuted, unsoloed, sliders at 0.9, no
        gain nodes yet. */
    constructor (n: nat)
      ensures Valid() && |gain| == n && Consistent()
      ensures forall k :: 0 <= k < n ==> !muted[k] && !solo[k] && slider[k] == DefaultVolume && gain[k].None?
    {
      muted := seq(n, _ => false);
      solo := seq(n, _ => false);
      slider := seq(n, _ => DefaultVolume);
      gain := seq(n, _ => None);
    }

    /** The audio graph's setup: each track without a node gets one at 0.9. */
    method CreateGainNodes()
      requires Valid()
      modifies this
      ensures Valid() && muted == old(muted) && solo == old(solo) && slider == old(slider)
      ensures |gain| == |old(gain)|
      ensures forall k :: 0 <= k < |gain| ==> gain[k] == if old(gain[k]).Some? then old(gain[k]) else Some(DefaultVolume)
    {
      var k := 0;
      while k < |gain|
        invariant 0 <= k <= |gain| == |old(gain)|
        invariant muted == old(muted) && solo == old(solo) && slider == old(slider)
        invariant forall j :: 0 <= j < k ==> gain[j] == if old(gain[j]).Some? then old(gain[j]) else Some(DefaultVolume)
        invariant forall j :: k <= j < |gain| ==> gain[j] == old(gain[j])
      {
        if gain[k].None? {
          gain := gain[k := Some(DefaultVolume)];
        }
        k := k + 1;
      }
    }

    /** `setVolume`: nothing without a gain node, else the node takes the
        volume times the gate. */
    method SetVolume(i: nat, v: real)
      requires Valid() && i < |gain|
      modifies this
      ensures Valid() && muted == old(muted) && solo == old(solo) && slider == old(slider)
      ensures old(gain[i]).None? ==> gain == old(gain)
      ensures old(gain[i]).Some? ==> gain == old(gain)[i := Some(v * Gate(muted[i], AnySolo(solo), solo[i]))]
    {
      if gain[i].Some? {
        var soloMode := AnySolo(solo);
        var g := VolumeGain(v, muted[i], soloMode, solo[i]);
        VolumeGainIsGated(v, muted[i], soloMode, solo[i]);
        gain := gain[i := Some(g)];
      }
    }

    /** The slider's input event: the reading moves, then `setVolume`. */
    method MoveSlider(i: nat, v: real)
      requires Valid() && i < |gain| && Consistent()
      modifies this
      ensures Valid() && Consistent()
      ensures muted == old(muted) && solo == old(solo) && slider == old(slider)[i := v]
      ensures |gain| == |old(gain)|
      ensures gain[i] == if old(gain[i]).Some? then Some(v * Gate(muted[i], AnySolo(solo), solo[i])) else None
      ensures forall k :: 0 <= k < |gain| && k != i ==> gain[k] == old(gain[k])
    {
      slider := slider[i := v];
      SetVolume(i, v);
    }

    /** `refreshGains` as written: every node takes `(slider || 1) * gate`. */
    method RefreshGainsAsWritten()
      requires Valid()
      modifies this
      ensures Valid() && muted == old(muted) && solo == old(solo) && slider == old(slider)
      ensures |gain| == |old(gain)|
      ensures forall k :: 0 <= k < |gain| ==>
        gain[k] == if old(gain[k]).Some? then Some(RefreshGainAsWritten(slider[k], muted[k], AnySolo(solo), solo[k])) else None
    {
      var soloMode := exists k :: 0 <= k < |solo| && solo[k];
      var idx := 0;
      while idx < |gain|
        invariant 0 <= idx <= |gain| == |old(gain)|
        invariant muted == old(muted) && solo == old(solo) && slider == old(slider)
        invariant forall j :: 0 <= j < idx ==>
          gain[j] == if old(gain[j]).Some? then Some(RefreshGainAsWritten(slider[j], muted[j], soloMode, solo[j])) else None
        invariant forall j :: idx <= j < |gain| ==> gain[j] == old(gain[j])
      {
        var g := Gate(muted[idx], soloMode, solo[idx]);
        if gain[idx].Some? {
          gain := gain[idx := Some(VolumeOrOne(slider[idx]) * g)];
        }
        idx := idx + 1;
      }
    }

    /** `refreshGains` corrected: every node takes its slider value times
        its gate, so the mixer is consistent afterwards. */
    method RefreshGains()
      requires Valid()
      modifies this
      ensures Valid() && Consistent()
      ensures muted == old(muted) && solo == old(solo) && slider == old(slider)
      ensures |gain| == |old(gain)|
      ensures forall k :: 0 <= k < |gain| ==> gain[k].Some? == old(gain[k]).Some?
    {
      var soloMode := exists k :: 0 <= k < |solo| && solo[k];
      var idx := 0;
      while idx < |gain|
        invariant 0 <= idx <= |gain| == |old(gain)|
        invariant muted == old(muted) && solo == old(solo) && slider == old(slider)
        invariant forall j :: 0 <= j < idx && gain[j].Some? ==> gain[j].value == slider[j] * GateOf(j)
        invariant forall j :: 0 <= j < idx ==> gain[j].Some? == old(gain[j]).Some?
        invariant forall j :: idx <= j < |gain| ==> gain[j] == old(gain[j])
      {
        var g := Gate(muted[idx], soloMode, solo[idx]);
        if gain[idx].Some? {
          gain := gain[idx := Some(slider[idx] * g)];
        }
        idx := idx + 1;
      }
    }

    /** `toggleMute`: the flag flips, then the gains are refreshed. */
    method ToggleMute(i: nat)
      requires Valid() && i < |gain|
      modifies this
      ensures Valid() && Consistent()
      ensures muted == old(muted)[i := !old(muted[i])] && solo == old(solo) && slider == old(slider)
      ensures |gain| == |old(gain)|
      ensures forall k :: 0 <= k < |gain| ==> gain[k].Some? == old(gain[k]).Some?
    {
      muted := muted[i := !muted[i]];
      RefreshGains();
    }

    /** `toggleSolo`: the flag flips, then the gains are refreshed. */
    method ToggleSolo(i: nat)
      requires Valid() && i < |gain|
      modifies this
      ensures Valid() && Consistent()
      ensures solo == old(solo)[i := !old(solo[i])] && muted == old(muted) && slider == old(slider)
      ensures |gain| == |old(gain)|
      ensures forall k :: 0 <= k < |gain| ==> gain[k].Some? == old(gain[k]).Some?
    {
      solo := solo[i := !solo[i]];
      RefreshGains();
    }
  }

  /** In a consistent mixer, a soloed track silences every track that is not
      soloed, and a muted track is silent. */
  lemma {:induction false} SoloSilencesOthers(m: Mixer, j: nat, k: nat)
    requires m.Valid() && m.Consistent()
    requires j < |m.gain| && k < |m.gain| && m.gain[k].Some?
    requires m.solo[j] && !m.solo[k]
    ensures m.gain[k].value == 0.0
  {
    assert AnySolo(m.solo);
    assert m.GateOf(k) == 0.0;
  }

  /** In a consistent mixer, a muted track is silent. */
  lemma MutedIsSilent(m: Mixer, k: nat)
    requires m.Valid() && m.Consistent()
    requires k < |m.gain| && m.gain[k].Some? && m.muted[k]
    ensures m.gain[k].value == 0.0
  {
    assert m.GateOf(k) == 0.0;
  }
}
