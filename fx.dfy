/** A track's effect chain: its settings, the audio parameters they drive and
    the wiring of its nodes (js/looper.js:701-788, the panel handler at 846-851). */

module Fx {
  /** The effects and their settings, as `getDefaultFxState` lays them out. */
  datatype EqState = EqState(on: bool, low: real, mid: real, high: real)
  datatype CompState = CompState(on: bool, threshold: real, ratio: real, attack: real)
  datatype PhaserState = PhaserState(on: bool, freq: real, depth: real)
  datatype DelayState = DelayState(on: bool, time: real, feedback: real, mix: real)
  datatype ReverbState = ReverbState(on: bool, mix: real)
  datatype FxState = FxState(eq: EqState, comp: CompState, phaser: PhaserState, delay: DelayState, reverb: ReverbState)

  /** `getDefaultFxState`: every effect off, with its stock settings. */
  function DefaultFx(): (fx: FxState)
    ensures !fx.eq.on && !fx.comp.on && !fx.phaser.on && !fx.delay.on && !fx.reverb.on
    ensures fx.eq.low == fx.eq.mid == fx.eq.high == 0.0
    ensures fx.comp.threshold == -24.0 && fx.comp.ratio == 12.0 && fx.comp.attack == 0.003
    ensures fx.phaser.freq == 700.0 && fx.phaser.depth == 0.7
    ensures fx.delay.time == 0.3 && fx.delay.feedback == 0.4 && fx.delay.mix == 0.5
    ensures fx.reverb.mix == 0.4
  {
    FxState(EqState(false, 0.0, 0.0, 0.0), CompState(false, -24.0, 12.0, 0.003), PhaserState(false, 700.0, 0.7),
      DelayState(false, 0.3, 0.4, 0.5), ReverbState(false, 0.4))
  }

  datatype Effect = EqFx | CompFx | PhaserFx | DelayFx | ReverbFx
  datatype Field = Low | Mid | High | Threshold | Ratio | Attack | Freq | Depth | Time | Feedback | Mix
  /** A `(fx, param)` key of the panel other than `on`. */
  datatype Setting = Setting(effect: Effect, field: Field)

  /** The keys each effect has. */
  predicate Has(s: Setting) {
    match s.effect
    case EqFx => s.field in {Low, Mid, High}
    case CompFx => s.field in {Threshold, Ratio, Attack}
    case PhaserFx => s.field in {Freq, Depth}
    case DelayFx => s.field in {Time, Feedback, Mix}
    case ReverbFx => s.field == Mix
  }

  /** The keys in `Object.keys` order, as `updateAllFxForTrack` visits them. */
  const AllSettings: seq<Setting> := [
    Setting(EqFx, Low), Setting(EqFx, Mid), Setting(EqFx, High),
    Setting(CompFx, Threshold), Setting(CompFx, Ratio), Setting(CompFx, Attack),
    Setting(PhaserFx, Freq), Setting(PhaserFx, Depth),
    Setting(DelayFx, Time), Setting(DelayFx, Feedback), Setting(DelayFx, Mix),
    Setting(ReverbFx, Mix)]

  /** `track.fx[fx][param]`. */
  function Get(fx: FxState, s: Setting): real
    requires Has(s)
  {
    match s
    case Setting(EqFx, Low) => fx.eq.low
    case Setting(EqFx, Mid) => fx.eq.mid
    case Setting(EqFx, _) => fx.eq.high
    case Setting(CompFx, Threshold) => fx.comp.threshold
    case Setting(CompFx, Ratio) => fx.comp.ratio
    case Setting(CompFx, _) => fx.comp.attack
    case Setting(PhaserFx, Freq) => fx.phaser.freq
    case Setting(PhaserFx, _) => fx.phaser.depth
    case Setting(DelayFx, Time) => fx.delay.time
    case Setting(DelayFx, Feedback) => fx.delay.feedback
    case Setting(DelayFx, _) => fx.delay.mix
    case Setting(ReverbFx, _) => fx.reverb.mix
  }

  /** `track.fx[fx][param] = value`. */
  function Set(fx: FxState, s: Setting, v: real): (r: FxState)
    requires Has(s)
    ensures Get(r, s) == v
    ensures forall t :: Has(t) && t != s ==> Get(r, t) == Get(fx, t)
    ensures OnOf(r, EqFx) == OnOf(fx, EqFx) && OnOf(r, CompFx) == OnOf(fx, CompFx)
    ensures OnOf(r, PhaserFx) == OnOf(fx, PhaserFx) && OnOf(r, DelayFx) == OnOf(fx, DelayFx)
    ensures OnOf(r, ReverbFx) == OnOf(fx, ReverbFx)
  {
    match s
    case Setting(EqFx, Low) => fx.(eq := fx.eq.(low := v))
    case Setting(EqFx, Mid) => fx.(eq := fx.eq.(mid := v))
    case Setting(EqFx, _) => fx.(eq := fx.eq.(high := v))
    case Setting(CompFx, Threshold) => fx.(comp := fx.comp.(threshold := v))
    case Setting(CompFx, Ratio) => fx.(comp := fx.comp.(ratio := v))
    case Setting(CompFx, _) => fx.(comp := fx.comp.(attack := v))
    case Setting(PhaserFx, Freq) => fx.(phaser := fx.phaser.(freq := v))
    case Setting(PhaserFx, _) => fx.(phaser := fx.phaser.(depth := v))
    case Setting(DelayFx, Time) => fx.(delay := fx.delay.(time := v))
    case Setting(DelayFx, Feedback) => fx.(delay := fx.delay.(feedback := v))
    case Setting(DelayFx, _) => fx.(delay := fx.delay.(mix := v))
    case Setting(ReverbFx, _) => fx.(reverb := fx.reverb.(mix := v))
  }

  /** Writing back the value a key already holds changes nothing. */
  lemma SetOwnValue(fx: FxState, s: Setting)
    requires Has(s)
    ensures Set(fx, s, Get(fx, s)) == fx
  {
  }

  /** `track.fx[fx].on`. */
  function OnOf(fx: FxState, e: Effect): bool {
    match e
    case EqFx => fx.eq.on
    case CompFx => fx.comp.on
    case PhaserFx => fx.phaser.on
    case DelayFx => fx.delay.on
    case ReverbFx => fx.reverb.on
  }

  /** `track.fx[fx].on = value`. */
  function WithOn(fx: FxState, e: Effect, on: bool): (r: FxState)
    ensures OnOf(r, e) == on
    ensures forall d :: d != e ==> OnOf(r, d) == OnOf(fx, d)
    ensures forall t :: Has(t) ==> Get(r, t) == Get(fx, t)
  {
    match e
    case EqFx => fx.(eq := fx.eq.(on := on))
    case CompFx => fx.(comp := fx.comp.(on := on))
    case PhaserFx => fx.(phaser := fx.phaser.(on := on))
    case DelayFx => fx.(delay := fx.delay.(on := on))
    case ReverbFx => fx.(reverb := fx.reverb.(on := on))
  }

  /** The audio parameters `updateFxParam` sets (its `setTargetAtTime` targets). */
  datatype Param = EqLowGain | EqMidGain | EqHighGain | CompThreshold | CompRatio | CompAttack
    | PhaserFrequency | PhaserDepthGain | DelayTime | FeedbackGain | DelayWetGain | DelayDryGain
    | ReverbWetGain | ReverbDryGain

  /** The value each parameter is meant to hold under the settings `fx`:
      the setting itself, or one minus the mix for a dry gain. */
  function ParamOf(fx: FxState, p: Param): real {
    match p
    case EqLowGain => fx.eq.low
    case EqMidGain => fx.eq.mid
    case EqHighGain => fx.eq.high
    case CompThreshold => fx.comp.threshold
    case CompRatio => fx.comp.ratio
    case CompAttack => fx.comp.attack
    case PhaserFrequency => fx.phaser.freq
    case PhaserDepthGain => fx.phaser.depth
    case DelayTime => fx.delay.time
    case FeedbackGain => fx.delay.feedback
    case DelayWetGain => fx.delay.mix
    case DelayDryGain => 1.0 - fx.delay.mix
    case ReverbWetGain => fx.reverb.mix
    case ReverbDryGain => 1.0 - fx.reverb.mix
  }

  /** The parameter writes of `updateFxParam(track, fx, param, v)`. */
  function Targets(s: Setting, v: real): map<Param, real>
    requires Has(s)
  {
    match s
    case Setting(EqFx, Low) => map[EqLowGain := v]
    case Setting(EqFx, Mid) => map[EqMidGain := v]
    case Setting(EqFx, _) => map[EqHighGain := v]
    case Setting(CompFx, Threshold) => map[CompThreshold := v]
    case Setting(CompFx, Ratio) => map[CompRatio := v]
    case Setting(CompFx, _) => map[CompAttack := v]
    case Setting(PhaserFx, Freq) => map[PhaserFrequency := v]
    case Setting(PhaserFx, _) => map[PhaserDepthGain := v]
    case Setting(DelayFx, Time) => map[DelayTime := v]
    case Setting(DelayFx, Feedback) => map[FeedbackGain := v]
    case Setting(DelayFx, _) => map[DelayWetGain := v, DelayDryGain := 1.0 - v]
    case Setting(ReverbFx, _) => map[ReverbWetGain := v, ReverbDryGain := 1.0 - v]
  }

  /** Every parameter holds the value the settings call for. */
  ghost predicate Synced(params: map<Param, real>, fx: FxState) {
    forall p :: p in params.Keys && params[p] == ParamOf(fx, p)
  }

  /** The parameter writes of one setting are what the new settings call
      for: a wet gain takes the mix and its dry gain one minus the mix. */
  lemma {:induction false} TargetsFollowSettings(fx: FxState, s: Setting, v: real)
    requires Has(s)
    ensures forall p :: p in Targets(s, v) ==> Targets(s, v)[p] == ParamOf(Set(fx, s, v), p)
  {
    var r := Set(fx, s, v);
    forall p | p in Targets(s, v) ensures Targets(s, v)[p] == ParamOf(r, p) {
      match s
      case Setting(EqFx, Low) =>
      case Setting(EqFx, Mid) =>
      case Setting(EqFx, _) =>
      case Setting(CompFx, Threshold) =>
      case Setting(CompFx, Ratio) =>
      case Setting(CompFx, _) =>
      case Setting(PhaserFx, Freq) =>
      case Setting(PhaserFx, _) =>
      case Setting(DelayFx, Time) =>
      case Setting(DelayFx, Feedback) =>
      case Setting(DelayFx, _) =>
      case Setting(ReverbFx, _) =>
    }
  }

  /** A parameter a setting does not write keeps the value it is meant to
      hold when that setting changes. */
  lemma {:induction false} OtherParamsStay(fx: FxState, s: Setting, v: real, p: Param)
    requires Has(s) && p !in Targets(s, v)
    ensures ParamOf(Set(fx, s, v), p) == ParamOf(fx, p)
  {
    match s
    case Setting(EqFx, Low) =>
    case Setting(EqFx, Mid) =>
    case Setting(EqFx, _) =>
    case Setting(CompFx, Threshold) =>
    case Setting(CompFx, Ratio) =>
    case Setting(CompFx, _) =>
    case Setting(PhaserFx, Freq) =>
    case Setting(PhaserFx, _) =>
    case Setting(DelayFx, Time) =>
    case Setting(DelayFx, Feedback) =>
    case Setting(DelayFx, _) =>
    case Setting(ReverbFx, _) =>
  }

  /** Changing one setting keeps the parameters in sync with the settings. */
  lemma {:induction false} SetKeepsSynced(params: map<Param, real>, fx: FxState, s: Setting, v: real)
    requires Has(s) && Synced(params, fx)
    ensures Synced(params + Targets(s, v), Set(fx, s, v))
  {
    var r := Set(fx, s, v);
    TargetsFollowSettings(fx, s, v);
    forall p ensures p in (params + Targets(s, v)).Keys && (params + Targets(s, v))[p] == ParamOf(r, p) {
      assert p in params.Keys && params[p] == ParamOf(fx, p);
      if p !in Targets(s, v) {
        OtherParamsStay(fx, s, v, p);
      }
    }
  }

  /** The position in `AllSettings` of the key that writes parameter `p`. */
  function Writer(p: Param): (k: nat)
    ensures k < |AllSettings| && p in Targets(AllSettings[k], 0.0)
  {
    match p
    case EqLowGain => 0
    case EqMidGain => 1
    case EqHighGain => 2
    case CompThreshold => 3
    case CompRatio => 4
    case CompAttack => 5
    case PhaserFrequency => 6
    case PhaserDepthGain => 7
    case DelayTime => 8
    case FeedbackGain => 9
    case DelayWetGain => 10
    case DelayDryGain => 10
    case ReverbWetGain => 11
    case ReverbDryGain => 11
  }

  /** Which parameters a key writes does not depend on the value. */
  lemma SameKeys(s: Setting, v: real, w: real)
    requires Has(s)
    ensures Targets(s, v).Keys == Targets(s, w).Keys
  {
  }

  /** The nodes of the chain (the phaser's oscillator and depth gain, which
      drive the phaser's frequency, are not part of this graph). */
  datatype Node = Input | EqLow | EqMid | EqHigh | Comp | Phaser | Delay | DelayFeedback | DelayWet | DelayDry
    | Reverb | ReverbWet | ReverbDry | Output

  const AllNodes: set<Node> := {Input, EqLow, EqMid, EqHigh, Comp, Phaser, Delay, DelayFeedback, DelayWet,
    DelayDry, Reverb, ReverbWet, ReverbDry, Output}

  /** A node is in use when the effect it belongs to is on; the input and
      the output always are. */
  predicate InUse(fx: FxState, n: Node) {
    match n
    case Input => true
    case Output => true
    case EqLow => fx.eq.on
    case EqMid => fx.eq.on
    case EqHigh => fx.eq.on
    case Comp => fx.comp.on
    case Phaser => fx.phaser.on
    case Reverb => fx.reverb.on
    case ReverbWet => fx.reverb.on
    case ReverbDry => fx.reverb.on
    case _ => fx.delay.on
  }

  /** Where the signal goes after the reverb's position: the reverb's dry
      and wet inputs when it is on, else the output. */
  function AfterDelay(fx: FxState): set<Node> {
    if fx.reverb.on then {ReverbDry, Reverb} else {Output}
  }

  /** Where the signal goes after the serial stages. */
  function AfterSerial(fx: FxState): set<Node> {
    if fx.delay.on then {DelayDry, Delay} else AfterDelay(fx)
  }

  /** Where the signal goes from the phaser's position on. */
  function FromPhaser(fx: FxState): set<Node> {
    if fx.phaser.on then {Phaser} else AfterSerial(fx)
  }

  /** Where the signal goes from the compressor's position on. */
  function FromComp(fx: FxState): set<Node> {
    if fx.comp.on then {Comp} else FromPhaser(fx)
  }

  /** The successors each node has in the wiring the settings call for. */
  function Succ(fx: FxState, n: Node): set<Node> {
    match n
    case Input => if fx.eq.on then {EqLow} else FromComp(fx)
    case EqLow => if fx.eq.on then {EqMid} else {}
    case EqMid => if fx.eq.on then {EqHigh} else {}
    case EqHigh => if fx.eq.on then FromComp(fx) else {}
    case Comp => if fx.comp.on then FromPhaser(fx) else {}
    case Phaser => if fx.phaser.on then AfterSerial(fx) else {}
    case Delay => if fx.delay.on then {DelayWet, DelayFeedback} else {}
    case DelayFeedback => if fx.delay.on then {Delay} else {}
    case DelayWet => if fx.delay.on then {Output} else {}
    case DelayDry => if fx.delay.on then {Output} + AfterDelay(fx) else {}
    case Reverb => if fx.reverb.on then {ReverbWet} else {}
    case ReverbWet => if fx.reverb.on then {Output} else {}
    case ReverbDry => if fx.reverb.on then {Output} else {}
    case Output => {}
  }

  /** Every node is one of `AllNodes`. */
  lemma AllNodesComplete()
    ensures forall n: Node :: n in AllNodes
  {
    forall n: Node ensures n in AllNodes {
      match n
      case Input =>
      case EqLow =>
      case EqMid =>
      case EqHigh =>
      case Comp =>
      case Phaser =>
      case Delay =>
      case DelayFeedback =>
      case DelayWet =>
      case DelayDry =>
      case Reverb =>
      case ReverbWet =>
      case ReverbDry =>
      case Output =>
    }
  }

  /** The connection table `outs` is the wiring the settings call for. */
  ghost predicate WiredAs(outs: map<Node, set<Node>>, fx: FxState) {
    forall n :: n in outs && outs[n] == Succ(fx, n)
  }

  /** The settings' wiring as a table over every node. */
  function Table(fx: FxState): (w: map<Node, set<Node>>)
    ensures WiredAs(w, fx)
  {
    AllNodesComplete();
    map n | n in AllNodes :: Succ(fx, n)
  }

  /** The last serial stage in use: the node the delay or the reverb or
      the output is fed from. */
  function LastSerial(fx: FxState): (n: Node)
    ensures InUse(fx, n)
  {
    if fx.phaser.on then Phaser else if fx.comp.on then Comp else if fx.eq.on then EqHigh else Input
  }

  /** The connections the serial stages make among themselves. */
  function SerialSucc(fx: FxState, n: Node): set<Node> {
    match n
    case Input => if fx.eq.on then {EqLow} else if fx.comp.on then {Comp} else if fx.phaser.on then {Phaser} else {}
    case EqLow => if fx.eq.on then {EqMid} else {}
    case EqMid => if fx.eq.on then {EqHigh} else {}
    case EqHigh => if fx.eq.on then (if fx.comp.on then {Comp} else if fx.phaser.on then {Phaser} else {}) else {}
    case Comp => if fx.comp.on && fx.phaser.on then {Phaser} else {}
    case _ => {}
  }

  /** The connections the delay block makes when fed from `last`. */
  function DelaySucc(fx: FxState, last: Node, n: Node): set<Node> {
    if !fx.delay.on then {}
    else
      (if n == last then {DelayDry} else {}) + (if n == DelayDry then {Output} else {})
      + (if n == last then {Delay} else {}) + (if n == Delay then {DelayWet} else {})
      + (if n == DelayWet then {Output} else {})
      + (if n == Delay then {DelayFeedback} else {}) + (if n == DelayFeedback then {Delay} else {})
  }

  /** The connections the reverb block, or the bypass to the output, makes
      when fed from `last`. */
  function ReverbSucc(fx: FxState, last: Node, n: Node): set<Node> {
    if !fx.reverb.on then (if n == last then {Output} else {})
    else
      (if n == last then {ReverbDry, Reverb} else {})
      + (match n
         case ReverbDry => {Output}
         case Reverb => {ReverbWet}
         case ReverbWet => {Output}
         case _ => {})
  }

  /** The three blocks of `connectFxChain` together make the wiring. */
  lemma {:induction false} BlocksMakeWiring(fx: FxState, n: Node)
    ensures Succ(fx, n) == SerialSucc(fx, n) + DelaySucc(fx, LastSerial(fx), n)
      + ReverbSucc(fx, if fx.delay.on then DelayDry else LastSerial(fx), n)
  {
    match n
    case Input =>
    case EqLow =>
    case EqMid =>
    case EqHigh =>
    case Comp =>
    case Phaser =>
    case Delay =>
    case DelayFeedback =>
    case DelayWet =>
    case DelayDry =>
    case Reverb =>
    case ReverbWet =>
    case ReverbDry =>
    case Output =>
  }

  /** With every effect off the chain is a straight wire to the output. */
  lemma DefaultIsBypass(n: Node)
    ensures Succ(DefaultFx(), n) == if n == Input then {Output} else {}
  {
  }

  /** Only nodes in use are wired: an edge joins two nodes whose effects are
      on, so a disabled effect is cut out of the graph. */
  lemma EdgesJoinNodesInUse(fx: FxState, n: Node, m: Node)
    requires m in Succ(fx, n)
    ensures InUse(fx, n) && InUse(fx, m)
  {
  }

  /** Every node in use is fed by a node in use, and feeds one unless it is
      the output: the chain has no dead ends and no loose inputs. */
  lemma {:induction false} NodesInUseAreWired(fx: FxState, n: Node)
    requires InUse(fx, n)
    ensures n != Output ==> Succ(fx, n) != {}
    ensures n != Input ==> exists m :: InUse(fx, m) && n in Succ(fx, m)
  {
    if n != Input {
      var m := Feeder(fx, n);
      assert InUse(fx, m) && n in Succ(fx, m);
    }
  }

  /** A node in use that feeds `n`. */
  function Feeder(fx: FxState, n: Node): (m: Node)
    requires InUse(fx, n) && n != Input
    ensures InUse(fx, m) && n in Succ(fx, m)
  {
    var last := if fx.phaser.on then Phaser else if fx.comp.on then Comp else if fx.eq.on then EqHigh else Input;
    var tail := if fx.delay.on then DelayDry else last;
    match n
    case EqLow => Input
    case EqMid => EqLow
    case EqHigh => EqMid
    case Comp => if fx.eq.on then EqHigh else Input
    case Phaser => if fx.comp.on then Comp else if fx.eq.on then EqHigh else Input
    case Delay => last
    case DelayDry => last
    case DelayWet => Delay
    case DelayFeedback => Delay
    case Reverb => tail
    case ReverbDry => tail
    case ReverbWet => Reverb
    case Output => if fx.reverb.on then ReverbWet else tail
  }

  /** The delay's wet path is never sent to the reverb: with the delay on,
      only its dry gain feeds the reverb. */
  lemma OnlyDryFeedsReverb(fx: FxState, n: Node)
    requires fx.delay.on
    requires Reverb in Succ(fx, n) || ReverbDry in Succ(fx, n)
    ensures n == DelayDry
  {
  }

  /** With the delay and the reverb both on, the delay's dry gain also goes
      straight to the output, beside the reverb. */
  lemma DryAlsoBypassesReverb(fx: FxState)
    requires fx.delay.on && fx.reverb.on
    ensures Succ(fx, DelayDry) == {Output, ReverbDry, Reverb}
  {
  }

  /** Setting a value other than `on` does not rewire anything. */
  lemma SettingsDoNotRewire(fx: FxState, s: Setting, v: real, n: Node)
    requires Has(s)
    ensures Succ(Set(fx, s, v), n) == Succ(fx, n)
  {
    var r := Set(fx, s, v);
    assert OnOf(r, EqFx) == OnOf(fx, EqFx) && OnOf(r, CompFx) == OnOf(fx, CompFx);
    assert OnOf(r, PhaserFx) == OnOf(fx, PhaserFx) && OnOf(r, DelayFx) == OnOf(fx, DelayFx);
    assert OnOf(r, ReverbFx) == OnOf(fx, ReverbFx);
  }

  /** `connectFxChain` as written: the input's connections are dropped,
      every other node keeps its own, and the wiring is added. */
  function AsWrittenOuts(outs: map<Node, set<Node>>, fx: FxState): (r: map<Node, set<Node>>)
    requires forall n :: n in outs
    ensures forall n :: n in r && r[n] == (if n == Input then {} else outs[n]) + Succ(fx, n)
  {
    AllNodesComplete();
    map n | n in AllNodes :: (if n == Input then {} else outs[n]) + Succ(fx, n)
  }

  /** As written, a delay switched off stays in the signal path: with the
      compressor on, switching the delay on and then off again leaves the
      compressor feeding the delay and its wet gain, though the delay is
      not in use. */
  lemma StaleDelayAsWritten()
    ensures var compOnly := DefaultFx().(comp := DefaultFx().comp.(on := true));
      var withDelay := compOnly.(delay := compOnly.delay.(on := true));
      var outs := AsWrittenOuts(AsWrittenOuts(Table(compOnly), withDelay), compOnly);
      Comp in outs[Input] && Delay in outs[Comp] && DelayWet in outs[Delay] && Output in outs[DelayWet]
      && !InUse(compOnly, Delay)
  {
    var compOnly := DefaultFx().(comp := DefaultFx().comp.(on := true));
    var withDelay := compOnly.(delay := compOnly.delay.(on := true));
    var outs1 := AsWrittenOuts(Table(compOnly), withDelay);
    assert Delay in Succ(withDelay, Comp) && DelayWet in Succ(withDelay, Delay);
    assert Delay in outs1[Comp] && DelayWet in outs1[Delay] && Output in outs1[DelayWet];
  }

  /** One track's effect chain: its settings, the parameter values its
      nodes are set to and each node's outgoing connections. */
  class FxTrack {
    var fx: FxState
    var params: map<Param, real>
    var outs: map<Node, set<Node>>

    ghost predicate Valid()
      reads this
    {
      forall n :: n in outs
    }

    /** `createFxChain`: the default settings, wired and applied. */
    constructor ()
      ensures Valid() && fx == DefaultFx() && WiredAs(outs, fx) && Synced(params, fx)
    {
      fx := DefaultFx();
      params := map[];
      outs := map n | n in AllNodes :: {};
      new;
      AllNodesComplete();
      Connect();
      UpdateAll();
    }

    /** `node.connect(to)`. */
    method Link(from: Node, to: Node)
      requires Valid()
      modifies this
      ensures Valid() && forall n :: outs[n] == old(outs[n]) + (if n == from then {to} else {})
      ensures fx == old(fx) && params == old(params)
    {
      outs := outs[from := outs[from] + {to}];
    }

    /** `connectFxChain`, as written: only the input is disconnected before
        the wiring is rebuilt. */
    method ConnectAsWritten()
      requires Valid()
      modifies this
      ensures Valid() && forall n :: outs[n] == (if n == Input then {} else old(outs[n])) + Succ(fx, n)
      ensures fx == old(fx) && params == old(params)
    {
      outs := outs[Input := {}];
      Wire();
    }

    /** `connectFxChain`, corrected: every node of the chain is disconnected
        first, so the connections are exactly the wiring the settings call for. */
    method Connect()
      requires Valid()
      modifies this
      ensures Valid() && WiredAs(outs, fx)
      ensures fx == old(fx) && params == old(params)
    {
      outs := map n | n in AllNodes :: {};
      AllNodesComplete();
      Wire();
    }

    /** The `connect` calls of `connectFxChain`, following `lastNode`:
        each node gains its successors in the wiring. */
    method Wire()
      requires Valid()
      modifies this
      ensures Valid() && forall n :: outs[n] == old(outs[n]) + Succ(fx, n)
      ensures fx == old(fx) && params == old(params)
    {
      ghost var o0 := outs;
      var last := WireSerial();
      ghost var o1 := outs;
      last := WireDelay(last);
      ghost var o2 := outs;
      WireReverb(last);
      forall n ensures outs[n] == o0[n] + Succ(fx, n) {
        BlocksMakeWiring(fx, n);
        assert outs[n] == o2[n] + ReverbSucc(fx, last, n);
        assert o2[n] == o1[n] + DelaySucc(fx, LastSerial(fx), n);
        assert o1[n] == o0[n] + SerialSucc(fx, n);
      }
    }

    /** The equaliser, compressor and phaser connections. */
    method WireSerial() returns (last: Node)
      requires Valid()
      modifies this
      ensures Valid() && forall n :: outs[n] == old(outs[n]) + SerialSucc(fx, n)
      ensures last == LastSerial(fx) && fx == old(fx) && params == old(params)
    {
      last := Input;
      if fx.eq.on {
        Link(last, EqLow);
        Link(EqLow, EqMid);
        Link(EqMid, EqHigh);
        last := EqHigh;
      }
      if fx.comp.on {
        Link(last, Comp);
        last := Comp;
      }
      if fx.phaser.on {
        Link(last, Phaser);
        last := Phaser;
      }
    }

    /** The delay's dry and wet paths and its feedback loop, fed from `last`. */
    method WireDelay(last: Node) returns (next: Node)
      requires Valid() && last in {Input, EqHigh, Comp, Phaser}
      modifies this
      ensures Valid() && forall n :: outs[n] == old(outs[n]) + DelaySucc(fx, last, n)
      ensures next == (if fx.delay.on then DelayDry else last) && fx == old(fx) && params == old(params)
    {
      next := last;
      if fx.delay.on {
        WireDelayDry(last);
        WireDelayWet(last);
        WireFeedback();
        next := DelayDry;
      }
    }

    /** `lastNode.connect(delayDry).connect(output)`. */
    method WireDelayDry(last: Node)
      requires Valid()
      modifies this
      ensures Valid() && fx == old(fx) && params == old(params)
      ensures forall n :: (outs[n] == old(outs[n]) + (if n == last then {DelayDry} else {})
        + (if n == DelayDry then {Output} else {}))
    {
      Link(last, DelayDry);
      Link(DelayDry, Output);
    }

    /** `lastNode.connect(delay).connect(delayWet).connect(output)`. */
    method WireDelayWet(last: Node)
      requires Valid()
      modifies this
      ensures Valid() && fx == old(fx) && params == old(params)
      ensures forall n :: (outs[n] == old(outs[n]) + (if n == last then {Delay} else {})
        + (if n == Delay then {DelayWet} else {}) + (if n == DelayWet then {Output} else {}))
    {
      Link(last, Delay);
      Link(Delay, DelayWet);
      Link(DelayWet, Output);
    }

    /** `delay.connect(delayFeedback).connect(delay)`. */
    method WireFeedback()
      requires Valid()
      modifies this
      ensures Valid() && fx == old(fx) && params == old(params)
      ensures forall n :: (outs[n] == old(outs[n]) + (if n == Delay then {DelayFeedback} else {})
        + (if n == DelayFeedback then {Delay} else {}))
    {
      Link(Delay, DelayFeedback);
      Link(DelayFeedback, Delay);
    }

    /** The reverb's dry and wet paths fed from `last`, or `last` straight
        to the output. */
    method WireReverb(last: Node)
      requires Valid() && last in {Input, EqHigh, Comp, Phaser, DelayDry}
      modifies this
      ensures Valid() && forall n :: outs[n] == old(outs[n]) + ReverbSucc(fx, last, n)
      ensures fx == old(fx) && params == old(params)
    {
      if fx.reverb.on {
        Link(last, ReverbDry);
        Link(ReverbDry, Output);
        Link(last, Reverb);
        Link(Reverb, ReverbWet);
        Link(ReverbWet, Output);
      } else {
        Link(last, Output);
      }
    }

    /** `updateFxParam`: the setting is stored and its parameters set. */
    method UpdateFxParam(s: Setting, v: real)
      requires Has(s)
      modifies this
      ensures fx == Set(old(fx), s, v) && params == old(params) + Targets(s, v) && outs == old(outs)
    {
      fx := Set(fx, s, v);
      params := params + Targets(s, v);
    }

    /** `updateAllFxForTrack`: every setting but `on` is written back
        through `updateFxParam`, then the chain is rewired; afterwards every
        parameter holds what the settings call for. */
    method UpdateAll()
      requires Valid()
      modifies this
      ensures fx == old(fx) && Synced(params, fx) && Valid() && WiredAs(outs, fx)
    {
      var k := 0;
      while k < |AllSettings|
        invariant 0 <= k <= |AllSettings| && fx == old(fx) && Valid()
        invariant forall p :: Writer(p) < k ==> p in params && params[p] == ParamOf(fx, p)
      {
        var s := AllSettings[k];
        TargetsFollowSettings(fx, s, Get(fx, s));
        SetOwnValue(fx, s);
        SameKeys(s, 0.0, Get(fx, s));
        UpdateFxParam(s, Get(fx, s));
        k := k + 1;
      }
      Connect();
    }

    /** The panel's checkbox: the effect's `on` flag is set and the chain
        rewired. */
    method SetStage(e: Effect, on: bool)
      requires Valid()
      modifies this
      ensures fx == WithOn(old(fx), e, on) && Valid() && WiredAs(outs, fx) && params == old(params)
    {
      fx := WithOn(fx, e, on);
      Connect();
    }

    /** The panel's sliders: `updateFxParam` with the slider's value, which
        keeps the parameters in sync with the settings. */
    method SetKnob(s: Setting, v: real)
      requires Has(s) && Synced(params, fx)
      modifies this
      ensures fx == Set(old(fx), s, v) && Synced(params, fx) && outs == old(outs)
    {
      SetKeepsSynced(params, fx, s, v);
      UpdateFxParam(s, v);
    }
  }
}
