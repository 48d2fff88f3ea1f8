/** The looper's transport and track state: eight tracks with undo histories, the loop length,
    the play state, the pending overdub schedule, the tempo settings and the metronome timer.
    Audio-clock time is a parameter `now` of every operation that reads it, and is taken to be
    constant during one call. */
module Looper {
  import opened JsNum
  import opened Tempo
  import opened History
  import opened Audio
  import Metro = Metronome

  /** The number of tracks. */
  const N: nat := 8

  /** The schedule of an overdub armed over a playing loop: the track, the clock time the capture
      actually started, the time it stops, and the loop boundary the take is aligned to. */
  datatype RecSchedule = RecSchedule(track: nat, startActual: real, stopAt: real, boundary: real)

  /** The tempo controls: beats per minute, time signature, swing percentage and metronome pulses
      per beat. */
  datatype Settings = Settings(bpm: real, tsTop: nat, tsBottom: nat, swing: real, pulses: nat)

  predicate SettingsOk(s: Settings) {
    s.bpm > 0.0 && s.tsTop >= 1 && s.tsBottom >= 1 && s.pulses >= 1
  }

  /** A buffer a source can play and a stretch can read: a positive rate and at least one sample. */
  predicate Playable(b: Buffer) {
    b.rate >= 1 && |b.data| >= 1
  }

  /** `Number(value) || fallback` for a select box holding whole numbers. */
  function ChoiceOr(n: Option<nat>, fallback: nat): (r: nat)
    ensures n.Some? && n.value != 0 ==> r == n.value
    ensures n.None? || n == Some(0) ==> r == fallback
  {
    if n.None? || n.value == 0 then fallback else n.value
  }

  /** What a completed capture becomes: the take to apply (none when fitting it fails), the loop
      length afterwards, and the pending overdub schedule afterwards. */
  datatype Completed = Completed(take: Option<Buffer>, loopLen: Option<real>, schedule: Option<RecSchedule>)

  /** The record-completion handlers after the capture is decoded: down-mix with 4 ms fades; an
      overdub armed for this track is head-trimmed to the loop and its schedule consumed; any other
      take sizes the loop when none is set (whole measures nearest its duration) and is fitted to it. */
  function Complete(d: Decoded, i: nat, schedule: Option<RecSchedule>, loopLen: Option<real>, measure: real): (c: Completed)
    requires WellFormed(d) && measure > 0.0
    ensures c.take.Some? ==> Playable(c.take.value)
    ensures schedule.Some? && schedule.value.track == i ==>
              c.schedule.None? && c.loopLen == loopLen && c.take.Some?
              && |c.take.value.data| == Max(1, LoopSamples(if loopLen.Some? then loopLen.value else 0.0, d.rate))
    ensures !(schedule.Some? && schedule.value.track == i) ==>
              c.schedule == schedule && c.loopLen.Some?
              && (loopLen.Some? ==> c.loopLen == loopLen)
              && (loopLen.None? ==> c.loopLen.value >= measure && OnGrid(c.loopLen.value, 0.0, measure))
              && (c.take.Some? <==> LoopSamples(c.loopLen.value, d.rate) >= 1)
              && (c.take.Some? ==> |c.take.value.data| == LoopSamples(c.loopLen.value, d.rate))
  {
    var rec := FadedMono(d, RecordFade);
    if schedule.Some? && schedule.value.track == i then
      Completed(Some(OverdubTrim(rec, schedule.value.startActual, schedule.value.boundary, loopLen)), loopLen, None)
    else
      var len := if loopLen.Some? then loopLen.value else SnappedLoop(Duration(rec), measure);
      Completed(Fitted(rec, len), Some(len), schedule)
  }

  /** `normalizeToLoop` of stored buffer `id`: what a source started for it plays. A buffer within
      a millisecond of the loop length plays as stored; any other is fitted to the loop first. */
  function Played(st: map<BufId, Buffer>, id: BufId, len: real): (r: Option<Buffer>)
    ensures id in st && st[id].rate >= 1 && Abs(Duration(st[id]) - len) < FitTolerance ==> r == Some(st[id])
    ensures id in st && st[id].rate >= 1 && Abs(Duration(st[id]) - len) >= FitTolerance ==> r == Fitted(st[id], len)
  {
    if id in st && st[id].rate >= 1 then NormalizeToLoop(st[id], len) else None
  }

  /** A take that recording fitted to the loop length (at 1000 Hz or more) plays exactly as stored:
      normalising it again leaves it alone. */
  lemma {:induction false} FittedTakePlaysAsStored(st: map<BufId, Buffer>, id: BufId, rec: Buffer, len: real)
    requires rec.rate >= 1000 && id in st && Fitted(rec, len) == Some(st[id])
    ensures Played(st, id, len) == Some(st[id])
  {
    NormalizeAfterFitIsIdentity(rec, len);
  }

  /** The voice `applyBufferToTrack` starts for buffer `b` of store `st` while playing: now, from
      the loop phase, looping over the loop length. The offset is the corrected one (see `LoopPhase`). */
  function Resumed(b: BufId, st: map<BufId, Buffer>, now: real, startAt: real, loopLen: real): (v: Voice)
    requires loopLen > 0.0
    ensures v.buffer == b && v.plays == Played(st, b, loopLen) && v.when == now && v.loopEnd == loopLen
    ensures 0.0 <= v.offset < loopLen && OnGrid(now - v.offset, startAt, loopLen)
  {
    Voice(b, Played(st, b, loopLen), now, LoopPhase(now, startAt, loopLen), loopLen)
  }

  /** The eight tracks after the initial `pushHistory`: empty, with the history `[null]` at pointer 0. */
  method NewTracks() returns (ts: seq<Track>)
    ensures |ts| == N
    ensures forall a, b :: 0 <= a < b < N ==> ts[a] != ts[b]
    ensures forall j :: 0 <= j < N ==> fresh(ts[j])
    ensures forall j :: 0 <= j < N ==>
              ts[j].history == [None] && ts[j].pointer == 0 && ts[j].buffer == None && ts[j].voice == None
  {
    ts := [];
    for k := 0 to N
      invariant |ts| == k
      invariant forall a, b :: 0 <= a < b < k ==> ts[a] != ts[b]
      invariant forall j :: 0 <= j < k ==> fresh(ts[j])
      invariant forall j :: 0 <= j < k ==>
                  ts[j].history == [None] && ts[j].pointer == 0 && ts[j].buffer == None && ts[j].voice == None
    {
      var t := new Track();
      t.PushHistory();
      ts := ts + [t];
    }
  }

  /** The source `startPlayback` gives a track: its buffer, normalised to the loop, from the start
      at `t0`; none without a buffer. */
  function Started(b: Entry, st: map<BufId, Buffer>, t0: real, len: real): (v: Option<Voice>)
    ensures v.Some? <==> b.Some?
    ensures v.Some? ==> v.value == Voice(b.value, Played(st, b.value, len), t0, 0.0, len)
  {
    if b.Some? then Some(Voice(b.value, Played(st, b.value, len), t0, 0.0, len)) else None
  }

  /** The voice `applyBufferToTrack` leaves on a track given buffer `id`: started now at the loop
      phase while playing with a loop, none otherwise. */
  function VoiceFor(id: BufId, st: map<BufId, Buffer>, now: real, playing: bool, startAt: real,
                    loopLen: Option<real>): (v: Option<Voice>)
    requires loopLen.Some? ==> loopLen.value > 0.0
    ensures v.Some? <==> playing && loopLen.Some?
    ensures v.Some? ==> v.value == Resumed(id, st, now, startAt, loopLen.value)
  {
    if playing && loopLen.Some? then Some(Resumed(id, st, now, startAt, loopLen.value)) else None
  }

  /** Where in the loop a looping source is at clock time `t`: it reads position `offset` at `when`
      and wraps at `loopEnd`. */
  function Position(v: Voice, t: real): (p: real)
    requires v.loopEnd > 0.0
    ensures 0.0 <= p < v.loopEnd
    ensures OnGrid(t - p, v.when - v.offset, v.loopEnd)
  {
    LoopPhase(t, v.when - v.offset, v.loopEnd)
  }

  /** A voice `applyBufferToTrack` starts while playing stays in step with the voices `startPlayback`
      started at `startAt`: at every later time both are at the same place in the loop. */
  lemma {:induction false} ResumedInStep(b: BufId, c: BufId, st: map<BufId, Buffer>, now: real, startAt: real,
                                         loopLen: real, t: real)
    requires loopLen > 0.0
    ensures Position(Resumed(b, st, now, startAt, loopLen), t) == Position(Started(Some(c), st, startAt, loopLen).value, t)
  {
    var v := Resumed(b, st, now, startAt, loopLen);
    PhaseOfShiftedStart(t, startAt, v.when - v.offset, loopLen);
    assert Started(Some(c), st, startAt, loopLen).value.when - 0.0 == startAt;
  }

  /** Track `t` was pushed from history `h0` at pointer `p0`, and its pointer is at the new head. */
  ghost predicate PushedFrom(t: Track, h0: seq<Entry>, p0: int)
    reads t
  {
    -1 <= p0 && t.history == Push(h0, p0, t.buffer) && t.pointer == |t.history| - 1
  }

  /** Track `t` was pushed twice: once from history `h0` at pointer `p0` holding buffer `b0`, then
      again from the head of that history. */
  ghost predicate PushedTwice(t: Track, h0: seq<Entry>, p0: int, b0: Entry)
    reads t
  {
    -1 <= p0 && var h1 := Push(h0, p0, b0); PushedFrom(t, h1, |h1| - 1)
  }

  /** `c` is what `fitOrScale` makes of entry `b` of store `st` at the new length: nothing for an
      empty track. */
  ghost predicate ConformedAs(c: Option<Buffer>, b: Entry, st: map<BufId, Buffer>, newLen: real, mode: FitMode)
  {
    if b.Some?
    then b.value in st && Playable(st[b.value]) && newLen > 0.0 && c == Conformed(st[b.value], newLen, mode)
    else c.None?
  }

  /** A conformation of a stored buffer is playable. */
  lemma ConformedPlayable(c: Option<Buffer>, b: Entry, st: map<BufId, Buffer>, newLen: real, mode: FitMode)
    requires ConformedAs(c, b, st, newLen, mode) && c.Some?
    ensures Playable(c.value)
  {
  }

  class Looper {
    const tracks: seq<Track>
    const metro: Metro.Metronome
    var store: map<BufId, Buffer>
    var nextId: nat
    var loopLen: Option<real>
    var playing: bool
    var startAt: real
    var schedule: Option<RecSchedule>
    var settings: Settings
    var measure: real

    ghost function Tracks(): set<Track> {
      set j | 0 <= j < |tracks| :: tracks[j]
    }

    /** Everything but the per-track history invariant: eight distinct tracks whose buffers are all
        stored and whose voices play their buffer while the transport plays; a positive loop length;
        the measure length of the settings; an armed metronome timer is enabled with its index
        inside the measure. */
    ghost predicate Shape()
      reads this, metro, Tracks()
    {
      |tracks| == N
      && (forall a, b :: 0 <= a < b < |tracks| ==> tracks[a] != tracks[b])
      && (forall id: nat :: id < nextId ==> id in store && Playable(store[id]))
      && (forall j :: 0 <= j < |tracks| ==> tracks[j].IdsBelow(nextId))
      && (forall j :: 0 <= j < |tracks| && tracks[j].voice.Some? ==>
            playing && tracks[j].buffer == Some(tracks[j].voice.value.buffer))
      && (loopLen.Some? ==> loopLen.value > 0.0)
      && SettingsOk(settings)
      && measure == MeasureLength(settings.bpm, settings.tsTop, settings.tsBottom)
      && (metro.armed ==> metro.enabled && metro.index < settings.tsTop * settings.pulses)
    }

    /** `Shape` and every track's history invariant. */
    ghost predicate Valid()
      reads this, metro, Tracks()
    {
      Shape() && forall j :: 0 <= j < |tracks| ==> tracks[j].Valid()
    }

    /** Some track other than `i` holds a buffer. */
    ghost predicate OtherBuffer(i: nat)
      reads this, Tracks()
    {
      exists j :: 0 <= j < |tracks| && j != i && tracks[j].buffer.Some?
    }

    /** `tracks.some(x => x.buffer)`. */
    predicate AnyBuffer()
      reads this, Tracks()
    {
      exists j :: 0 <= j < |tracks| && tracks[j].buffer.Some?
    }

    /** What the metronome scheduler reads. */
    function Config(): (c: Metro.Config)
      reads this
      requires SettingsOk(settings) && measure > 0.0
      ensures Metro.Valid(c)
    {
      Metro.Config(settings.tsTop, settings.pulses, settings.swing, measure, playing, startAt)
    }

    /** The metronome has just been (re)started: armed, its clicks and cursor those of the schedule
        from the first measure boundary after `now`. */
    ghost predicate Restarted(now: real, clicks: seq<Metro.Click>)
      reads this, metro
      requires SettingsOk(settings) && measure > 0.0
    {
      var first := Metro.Cursor(MetronomeStart(now, playing, startAt, measure), 0);
      metro.armed
      && clicks == Metro.Schedule(Config(), first, |clicks|)
      && Metro.Cursor(metro.nextTime, metro.index) == Metro.Walk(Config(), first, |clicks|)
    }

    /** Page load: eight empty tracks, each with the history `[null]` at pointer 0, the default
        tempo 120 bpm in 4/4 with one pulse per beat and no swing, no loop, stopped. */
    constructor()
      ensures Valid()
      ensures forall j :: 0 <= j < N ==> tracks[j].history == [None] && tracks[j].pointer == 0
      ensures settings == Settings(DefaultBpm, 4, 4, 0.0, 1) && measure == 2.0
      ensures loopLen.None? && !playing && schedule.None? && !metro.enabled && !metro.armed
    {
      var ts := NewTracks();
      tracks := ts;
      metro := new Metro.Metronome();
      store := map[];
      nextId := 0;
      loopLen := None;
      playing := false;
      startAt := 0.0;
      schedule := None;
      settings := Settings(DefaultBpm, 4, 4, 0.0, 1);
      measure := MeasureLength(DefaultBpm, 4, 4);
      new;
      assert measure * 120.0 * 4.0 == 240.0 * 4.0;
      assert forall j :: 0 <= j < N ==> tracks[j].IdsBelow(0);
    }

    /** `pushHistory` on track `i`, keeping the looper's shape; with `atEnd` the pointer is first
        forced past the last entry, as the record-completion handlers do. */
    method PushTrack(i: nat, atEnd: bool)
      requires Shape() && i < N && tracks[i].pointer >= -1 && |tracks[i].history| <= MaxHistory
      modifies tracks[i]
      ensures Shape()
      ensures tracks[i].history ==
                Push(old(tracks[i].history), if atEnd then |old(tracks[i].history)| else old(tracks[i].pointer), tracks[i].buffer)
      ensures tracks[i].pointer == |tracks[i].history| - 1 && tracks[i].Valid()
      ensures tracks[i].buffer == old(tracks[i].buffer) && tracks[i].voice == old(tracks[i].voice)
    {
      if atEnd {
        tracks[i].pointer := |tracks[i].history|;
      }
      tracks[i].PushHistory();
    }

    /** Track `i` gets buffer `b` and source `v`, a source only while playing and for that buffer. */
    method SetSource(i: nat, b: Entry, v: Option<Voice>)
      requires Shape() && i < N && (b.Some? ==> b.value < nextId)
      requires v.Some? ==> playing && b == Some(v.value.buffer)
      modifies tracks[i]
      ensures Shape()
      ensures tracks[i].buffer == b && tracks[i].voice == v
      ensures tracks[i].history == old(tracks[i].history) && tracks[i].pointer == old(tracks[i].pointer)
    {
      tracks[i].buffer := b;
      tracks[i].voice := v;
    }

    /** `applyBufferToTrack`: stop the track's source, set its buffer, and while playing with a loop
        start the new buffer now from the loop phase; when no track holds a buffer any more the
        loop length is cleared. */
    method ApplyBufferToTrack(i: nat, b: Entry, now: real)
      requires Shape() && i < N && (b.Some? ==> b.value < nextId)
      modifies this, tracks[i]
      ensures Shape()
      ensures tracks[i].buffer == b
      ensures tracks[i].history == old(tracks[i].history) && tracks[i].pointer == old(tracks[i].pointer)
      ensures tracks[i].voice ==
                if playing && b.Some? && old(loopLen).Some?
                then Some(Resumed(b.value, store, now, startAt, old(loopLen).value)) else None
      ensures loopLen == if AnyBuffer() then old(loopLen) else None
      ensures b.Some? ==> loopLen == old(loopLen)
      ensures store == old(store) && nextId == old(nextId) && playing == old(playing)
      ensures startAt == old(startAt) && schedule == old(schedule)
      ensures settings == old(settings) && measure == old(measure)
    {
      SetSource(i, b, if playing && b.Some? && loopLen.Some? then Some(Resumed(b.value, store, now, startAt, loopLen.value)) else None);
      if !AnyBuffer() {
        loopLen := None;
      }
    }

    /** `undo`: with an earlier state, step the pointer back and apply that state's buffer. */
    method Undo(i: nat, now: real)
      requires Valid() && i < N
      modifies this, tracks[i]
      ensures Valid()
      ensures tracks[i].history == old(tracks[i].history)
      ensures tracks[i].pointer == UndoPointer(old(tracks[i].pointer))
      ensures UndoDisabled(old(tracks[i].pointer)) ==>
                tracks[i].buffer == old(tracks[i].buffer) && tracks[i].voice == old(tracks[i].voice)
                && loopLen == old(loopLen)
      ensures !UndoDisabled(old(tracks[i].pointer)) ==>
                tracks[i].buffer == tracks[i].history[tracks[i].pointer]
                && tracks[i].voice ==
                     (if tracks[i].buffer.Some?
                      then VoiceFor(tracks[i].buffer.value, store, now, playing, startAt, old(loopLen)) else None)
                && loopLen == (if AnyBuffer() then old(loopLen) else None)
      ensures store == old(store) && nextId == old(nextId) && playing == old(playing)
      ensures startAt == old(startAt) && schedule == old(schedule)
      ensures settings == old(settings) && measure == old(measure)
    {
      var t := tracks[i];
      if t.pointer > 0 {
        t.pointer := t.pointer - 1;
        ApplyBufferToTrack(i, t.history[t.pointer], now);
      }
    }

    /** `redo`: with a later state, step the pointer forward and apply that state's buffer. */
    method Redo(i: nat, now: real)
      requires Valid() && i < N
      modifies this, tracks[i]
      ensures Valid()
      ensures tracks[i].history == old(tracks[i].history)
      ensures tracks[i].pointer == RedoPointer(old(tracks[i].history), old(tracks[i].pointer))
      ensures RedoDisabled(old(tracks[i].history), old(tracks[i].pointer)) ==>
                tracks[i].buffer == old(tracks[i].buffer) && tracks[i].voice == old(tracks[i].voice)
                && loopLen == old(loopLen)
      ensures !RedoDisabled(old(tracks[i].history), old(tracks[i].pointer)) ==>
                tracks[i].buffer == tracks[i].history[tracks[i].pointer]
                && tracks[i].voice ==
                     (if tracks[i].buffer.Some?
                      then VoiceFor(tracks[i].buffer.value, store, now, playing, startAt, old(loopLen)) else None)
                && loopLen == (if AnyBuffer() then old(loopLen) else None)
      ensures store == old(store) && nextId == old(nextId) && playing == old(playing)
      ensures startAt == old(startAt) && schedule == old(schedule)
      ensures settings == old(settings) && measure == old(measure)
    {
      var t := tracks[i];
      if t.pointer < |t.history| - 1 {
        t.pointer := t.pointer + 1;
        ApplyBufferToTrack(i, t.history[t.pointer], now);
      }
    }

    /** `clearTrack`: push the state before, empty the track, push the empty state. */
    method ClearTrack(i: nat, now: real)
      requires Valid() && i < N
      modifies this, tracks[i]
      ensures Valid()
      ensures tracks[i].history == Cleared(old(tracks[i].history), old(tracks[i].pointer), old(tracks[i].buffer))
      ensures tracks[i].buffer == None && tracks[i].voice == None
      ensures loopLen == if old(OtherBuffer(i)) then old(loopLen) else None
      ensures store == old(store) && nextId == old(nextId) && playing == old(playing)
      ensures startAt == old(startAt) && schedule == old(schedule)
      ensures settings == old(settings) && measure == old(measure)
    {
      ghost var h1 := Push(tracks[i].history, tracks[i].pointer, tracks[i].buffer);
      PushTrack(i, false);
      ApplyBufferToTrack(i, None, now);
      assert AnyBuffer() == old(OtherBuffer(i));
      PushTrack(i, false);
      assert tracks[i].history == Push(h1, |h1| - 1, None);
    }

    /** `startPlayback` step 1: every track's source is replaced by one playing its buffer from the
        start at `t0`, looping over the loop length. */
    method StartVoices(t0: real, len: real)
      requires |tracks| == N
      modifies Tracks()
      ensures forall k :: 0 <= k < N ==>
                tracks[k].voice == Started(tracks[k].buffer, store, t0, len)
                && tracks[k].buffer == old(tracks[k].buffer) && tracks[k].history == old(tracks[k].history)
                && tracks[k].pointer == old(tracks[k].pointer)
    {
      for j := 0 to N
        invariant forall k :: 0 <= k < N ==>
                    tracks[k].buffer == old(tracks[k].buffer) && tracks[k].history == old(tracks[k].history)
                    && tracks[k].pointer == old(tracks[k].pointer)
        invariant forall k :: 0 <= k < j ==> tracks[k].voice == Started(tracks[k].buffer, store, t0, len)
      {
        var t := tracks[j];
        t.voice := Started(t.buffer, store, t0, len);
      }
    }

    /** `stopPlayback` step 1: every track's source is stopped. */
    method StopVoices()
      requires |tracks| == N
      modifies Tracks()
      ensures forall k :: 0 <= k < N ==>
                tracks[k].voice == None
                && tracks[k].buffer == old(tracks[k].buffer) && tracks[k].history == old(tracks[k].history)
                && tracks[k].pointer == old(tracks[k].pointer)
    {
      for j := 0 to N
        invariant forall k :: 0 <= k < N ==>
                    tracks[k].buffer == old(tracks[k].buffer) && tracks[k].history == old(tracks[k].history)
                    && tracks[k].pointer == old(tracks[k].pointer)
        invariant forall k :: 0 <= k < j ==> tracks[k].voice == None
      {
        tracks[j].voice := None;
      }
    }

    /** `startPlayback`: unless already playing or without a loop, start every track with a buffer
        at the first multiple of the loop length after `now`, mark the transport playing from there,
        and start the metronome when it is enabled and not already running. */
    method StartPlayback(now: real) returns (clicks: seq<Metro.Click>)
      requires Valid()
      modifies this, metro, Tracks()
      ensures Valid()
      ensures old(playing) || old(loopLen).None? ==>
                playing == old(playing) && startAt == old(startAt) && clicks == []
                && (forall k :: 0 <= k < N ==> tracks[k].voice == old(tracks[k].voice))
                && metro.armed == old(metro.armed) && metro.nextTime == old(metro.nextTime)
                && metro.index == old(metro.index)
      ensures !old(playing) && old(loopLen).Some? ==>
                playing && startAt == PlayStart(now, old(loopLen).value)
                && (forall k :: 0 <= k < N ==> tracks[k].voice == Started(tracks[k].buffer, store, startAt, old(loopLen).value))
                && (old(metro.enabled) && !old(metro.armed) ==> Restarted(now, clicks))
                && (!old(metro.enabled) || old(metro.armed) ==>
                      clicks == [] && metro.armed == old(metro.armed) && metro.nextTime == old(metro.nextTime)
                      && metro.index == old(metro.index))
      ensures forall k :: 0 <= k < N ==>
                tracks[k].buffer == old(tracks[k].buffer) && tracks[k].history == old(tracks[k].history)
                && tracks[k].pointer == old(tracks[k].pointer)
      ensures metro.enabled == old(metro.enabled)
      ensures loopLen == old(loopLen) && store == old(store) && nextId == old(nextId)
      ensures schedule == old(schedule) && settings == old(settings) && measure == old(measure)
    {
      clicks := [];
      if playing || loopLen.None? {
        return;
      }
      var t0 := PlayStart(now, loopLen.value);
      StartVoices(t0, loopLen.value);
      startAt := t0;
      playing := true;
      clicks := metro.Start(Config(), now);
    }

    /** `stopPlayback`: when playing, stop the metronome and every source and mark the transport stopped. */
    method StopPlayback()
      requires Valid()
      modifies this, metro, Tracks()
      ensures Valid()
      ensures !old(playing) ==>
                !playing && (forall k :: 0 <= k < N ==> tracks[k].voice == old(tracks[k].voice))
                && metro.armed == old(metro.armed)
      ensures old(playing) ==>
                !playing && !metro.armed && forall k :: 0 <= k < N ==> tracks[k].voice == None
      ensures forall k :: 0 <= k < N ==>
                tracks[k].buffer == old(tracks[k].buffer) && tracks[k].history == old(tracks[k].history)
                && tracks[k].pointer == old(tracks[k].pointer)
      ensures metro.enabled == old(metro.enabled) && metro.nextTime == old(metro.nextTime)
      ensures metro.index == old(metro.index) && startAt == old(startAt)
      ensures loopLen == old(loopLen) && store == old(store) && nextId == old(nextId)
      ensures schedule == old(schedule) && settings == old(settings) && measure == old(measure)
    {
      if !playing {
        return;
      }
      metro.Stop();
      StopVoices();
      playing := false;
    }

    /** The play button: without a loop, size it from the measures box (`Math.max(1, Number(text) || 4)`
        measures), then start playback. */
    method PressPlay(typed: Option<real>, now: real) returns (clicks: seq<Metro.Click>)
      requires Valid()
      modifies this, metro, Tracks()
      ensures Valid()
      ensures old(loopLen).Some? ==> loopLen == old(loopLen)
      ensures old(loopLen).None? ==> loopLen == Some(PlayLoopLength(typed, measure))
      ensures old(playing) ==>
                playing && startAt == old(startAt) && clicks == []
                && (forall k :: 0 <= k < N ==> tracks[k].voice == old(tracks[k].voice))
                && metro.armed == old(metro.armed) && metro.nextTime == old(metro.nextTime)
                && metro.index == old(metro.index)
      ensures !old(playing) ==>
                playing && startAt == PlayStart(now, loopLen.value)
                && (forall k :: 0 <= k < N ==> tracks[k].voice == Started(tracks[k].buffer, store, startAt, loopLen.value))
                && (old(metro.enabled) && !old(metro.armed) ==> Restarted(now, clicks))
                && (!old(metro.enabled) || old(metro.armed) ==>
                      clicks == [] && metro.armed == old(metro.armed) && metro.nextTime == old(metro.nextTime)
                      && metro.index == old(metro.index))
      ensures forall k :: 0 <= k < N ==>
                tracks[k].buffer == old(tracks[k].buffer) && tracks[k].history == old(tracks[k].history)
                && tracks[k].pointer == old(tracks[k].pointer)
      ensures metro.enabled == old(metro.enabled)
      ensures store == old(store) && nextId == old(nextId)
      ensures schedule == old(schedule) && settings == old(settings) && measure == old(measure)
    {
      if loopLen.None? {
        loopLen := Some(PlayLoopLength(typed, measure));
      }
      clicks := StartPlayback(now);
    }

    /** `safeRecordStart`: over a playing loop, schedule the take on track `i` for the record window
        from `now`; otherwise leave any earlier schedule as it is. */
    method ArmRecording(i: nat, now: real)
      requires Valid() && i < N
      modifies this
      ensures Valid()
      ensures old(loopLen).Some? && playing ==>
                var w := RecordWindow(now, startAt, old(loopLen).value);
                schedule == Some(RecSchedule(i, now, w.stopAt, w.boundary))
      ensures !(old(loopLen).Some? && playing) ==> schedule == old(schedule)
      ensures loopLen == old(loopLen) && playing == old(playing) && startAt == old(startAt)
      ensures store == old(store) && nextId == old(nextId) && settings == old(settings) && measure == old(measure)
    {
      if loopLen.Some? && playing {
        var w := RecordWindow(now, startAt, loopLen.value);
        schedule := Some(RecSchedule(i, now, w.stopAt, w.boundary));
      }
    }

    /** The record-completion handlers from the decoded capture to the take: down-mix with fades,
        then the overdub head trim (consuming the schedule) or the first-loop sizing and fit. */
    method MakeTake(i: nat, d: Decoded) returns (take: Option<Buffer>)
      requires Shape() && WellFormed(d)
      modifies this
      ensures Shape()
      ensures var c := Complete(d, i, old(schedule), old(loopLen), measure);
        take == c.take && loopLen == c.loopLen && schedule == c.schedule
      ensures take.Some? ==> Playable(take.value)
      ensures store == old(store) && nextId == old(nextId) && playing == old(playing) && startAt == old(startAt)
      ensures settings == old(settings) && measure == old(measure)
    {
      var rec := ToMonoWithFades(d, RecordFade);
      if schedule.Some? && schedule.value.track == i {
        take := Some(OverdubTrim(rec, schedule.value.startActual, schedule.value.boundary, loopLen));
        schedule := None;
      } else {
        if loopLen.None? {
          loopLen := Some(SnappedLoop(Duration(rec), measure));
        }
        take := FitBufferToLoop(rec, loopLen.value);
      }
    }

    /** A new buffer object: stored under the next identity. */
    method StoreBuffer(b: Buffer) returns (id: BufId)
      requires Shape() && Playable(b)
      modifies this
      ensures Shape()
      ensures id == old(nextId) && nextId == old(nextId) + 1 && store == old(store)[id := b]
      ensures loopLen == old(loopLen) && schedule == old(schedule) && playing == old(playing)
      ensures startAt == old(startAt) && settings == old(settings) && measure == old(measure)
    {
      id := nextId;
      store := store[id := b];
      nextId := nextId + 1;
      assert forall j :: 0 <= j < |tracks| ==> tracks[j].IdsBelow(nextId);
    }

    /** The record-completion handlers: push the state before; stop if there is no capture; otherwise
        make the take (see `Complete`), store and apply it, and push it with the pointer forced past
        the end. */
    method CompleteRecording(i: nat, captured: Option<Decoded>, now: real)
      requires Valid() && i < N && (captured.Some? ==> WellFormed(captured.value))
      modifies this, tracks[i]
      ensures Valid()
      ensures captured.None? ==>
                tracks[i].history == Push(old(tracks[i].history), old(tracks[i].pointer), old(tracks[i].buffer))
                && tracks[i].buffer == old(tracks[i].buffer) && tracks[i].voice == old(tracks[i].voice)
                && loopLen == old(loopLen) && schedule == old(schedule) && store == old(store) && nextId == old(nextId)
      ensures captured.Some? ==>
                var c := Complete(captured.value, i, old(schedule), old(loopLen), measure);
                schedule == c.schedule && loopLen == c.loopLen
                && (c.take.None? ==>
                      tracks[i].history == Push(old(tracks[i].history), old(tracks[i].pointer), old(tracks[i].buffer))
                      && tracks[i].buffer == old(tracks[i].buffer) && tracks[i].voice == old(tracks[i].voice)
                      && store == old(store) && nextId == old(nextId))
                && (c.take.Some? ==>
                      nextId == old(nextId) + 1 && store == old(store)[old(nextId) := c.take.value]
                      && tracks[i].buffer == Some(old(nextId))
                      && tracks[i].history == Recorded(old(tracks[i].history), old(tracks[i].pointer), old(tracks[i].buffer), old(nextId))
                      && tracks[i].voice ==
                           if playing && loopLen.Some? then Some(Resumed(old(nextId), store, now, startAt, loopLen.value)) else None)
      ensures tracks[i].pointer == |tracks[i].history| - 1
      ensures playing == old(playing) && startAt == old(startAt)
      ensures settings == old(settings) && measure == old(measure)
    {
      ghost var h1 := Push(tracks[i].history, tracks[i].pointer, tracks[i].buffer);
      PushTrack(i, false);
      if captured.None? {
        return;
      }
      var take := MakeTake(i, captured.value);
      if take.None? {
        return;
      }
      var id := StoreBuffer(take.value);
      ApplyBufferToTrack(i, Some(id), now);
      PushTrack(i, true);
      assert tracks[i].history == Push(h1, |h1|, Some(id));
    }

    /** The restart every tempo control performs: `stopMetronome(); startMetronome()` when enabled. */
    method RestartMetronome(now: real) returns (clicks: seq<Metro.Click>)
      requires SettingsOk(settings) && measure > 0.0
      modifies metro
      ensures metro.enabled == old(metro.enabled)
      ensures metro.enabled ==> Restarted(now, clicks) && metro.index < settings.tsTop * settings.pulses
      ensures !metro.enabled ==>
                clicks == [] && metro.armed == old(metro.armed) && metro.nextTime == old(metro.nextTime)
                && metro.index == old(metro.index)
    {
      clicks := [];
      if metro.enabled {
        metro.Stop();
        clicks := metro.Start(Config(), now);
      }
    }

    /** `updateMeasureDisplay` after a tempo or time-signature change, then the metronome restart:
        the measure length follows the settings and an existing loop is re-snapped to the nearest
        whole number of the new measures. */
    method Retempo(s: Settings, now: real) returns (clicks: seq<Metro.Click>)
      requires Valid() && SettingsOk(s)
      modifies this, metro
      ensures Valid()
      ensures settings == s && measure == MeasureLength(s.bpm, s.tsTop, s.tsBottom)
      ensures loopLen == if old(loopLen).Some? then Some(SnappedLoop(old(loopLen).value, measure)) else None
      ensures metro.enabled == old(metro.enabled)
      ensures metro.enabled ==> Restarted(now, clicks)
      ensures !metro.enabled ==> clicks == [] && !metro.armed
      ensures playing == old(playing) && startAt == old(startAt) && schedule == old(schedule)
      ensures store == old(store) && nextId == old(nextId)
    {
      settings := s;
      measure := MeasureLength(s.bpm, s.tsTop, s.tsBottom);
      if loopLen.Some? {
        loopLen := Some(SnappedLoop(loopLen.value, measure));
      }
      clicks := RestartMetronome(now);
    }

    /** The typed tempo box: the tempo becomes `Math.max(40, Math.min(240, Number(text) || 120))`. */
    method SetBpmTyped(typed: Option<real>, now: real) returns (clicks: seq<Metro.Click>)
      requires Valid()
      modifies this, metro
      ensures Valid()
      ensures settings == old(settings).(bpm := TypedBpm(typed))
      ensures MinBpm <= settings.bpm <= MaxBpm
      ensures loopLen == if old(loopLen).Some? then Some(SnappedLoop(old(loopLen).value, measure)) else None
      ensures metro.enabled == old(metro.enabled)
      ensures metro.enabled ==> Restarted(now, clicks)
      ensures !metro.enabled ==> clicks == [] && !metro.armed
      ensures playing == old(playing) && startAt == old(startAt) && schedule == old(schedule)
      ensures store == old(store) && nextId == old(nextId)
    {
      clicks := Retempo(settings.(bpm := TypedBpm(typed)), now);
    }

    /** The tempo slider: its value is taken as it is (the slider's own range keeps it positive). */
    method SetBpmSlider(v: real, now: real) returns (clicks: seq<Metro.Click>)
      requires Valid() && v > 0.0
      modifies this, metro
      ensures Valid()
      ensures settings == old(settings).(bpm := v)
      ensures loopLen == if old(loopLen).Some? then Some(SnappedLoop(old(loopLen).value, measure)) else None
      ensures metro.enabled == old(metro.enabled)
      ensures metro.enabled ==> Restarted(now, clicks)
      ensures !metro.enabled ==> clicks == [] && !metro.armed
      ensures playing == old(playing) && startAt == old(startAt) && schedule == old(schedule)
      ensures store == old(store) && nextId == old(nextId)
    {
      clicks := Retempo(settings.(bpm := v), now);
    }

    /** The time-signature numerator: `Number(value) || 4`. */
    method SetTimeTop(typed: Option<nat>, now: real) returns (clicks: seq<Metro.Click>)
      requires Valid()
      modifies this, metro
      ensures Valid()
      ensures settings == old(settings).(tsTop := ChoiceOr(typed, 4))
      ensures loopLen == if old(loopLen).Some? then Some(SnappedLoop(old(loopLen).value, measure)) else None
      ensures metro.enabled == old(metro.enabled)
      ensures metro.enabled ==> Restarted(now, clicks)
      ensures !metro.enabled ==> clicks == [] && !metro.armed
      ensures playing == old(playing) && startAt == old(startAt) && schedule == old(schedule)
      ensures store == old(store) && nextId == old(nextId)
    {
      clicks := Retempo(settings.(tsTop := ChoiceOr(typed, 4)), now);
    }

    /** The time-signature denominator: `Number(value) || 4`. */
    method SetTimeBottom(typed: Option<nat>, now: real) returns (clicks: seq<Metro.Click>)
      requires Valid()
      modifies this, metro
      ensures Valid()
      ensures settings == old(settings).(tsBottom := ChoiceOr(typed, 4))
      ensures loopLen == if old(loopLen).Some? then Some(SnappedLoop(old(loopLen).value, measure)) else None
      ensures metro.enabled == old(metro.enabled)
      ensures metro.enabled ==> Restarted(now, clicks)
      ensures !metro.enabled ==> clicks == [] && !metro.armed
      ensures playing == old(playing) && startAt == old(startAt) && schedule == old(schedule)
      ensures store == old(store) && nextId == old(nextId)
    {
      clicks := Retempo(settings.(tsBottom := ChoiceOr(typed, 4)), now);
    }

    /** The metronome pulses per beat: `Number(value) || 1`; the measure and the loop are untouched. */
    method SetPulses(typed: Option<nat>, now: real) returns (clicks: seq<Metro.Click>)
      requires Valid()
      modifies this, metro
      ensures Valid()
      ensures settings == old(settings).(pulses := ChoiceOr(typed, 1))
      ensures measure == old(measure) && loopLen == old(loopLen)
      ensures metro.enabled == old(metro.enabled)
      ensures metro.enabled ==> Restarted(now, clicks)
      ensures !metro.enabled ==>
                clicks == [] && metro.armed == old(metro.armed) && metro.nextTime == old(metro.nextTime)
                && metro.index == old(metro.index)
      ensures playing == old(playing) && startAt == old(startAt) && schedule == old(schedule)
      ensures store == old(store) && nextId == old(nextId)
    {
      settings := settings.(pulses := ChoiceOr(typed, 1));
      clicks := RestartMetronome(now);
    }

    /** The swing slider: stored, with no restart; the scheduler reads it on its next run. */
    method SetSwing(v: real)
      requires Valid()
      modifies this
      ensures Valid()
      ensures settings == old(settings).(swing := v)
      ensures measure == old(measure) && loopLen == old(loopLen) && playing == old(playing)
      ensures startAt == old(startAt) && schedule == old(schedule)
      ensures store == old(store) && nextId == old(nextId)
    {
      settings := settings.(swing := v);
    }

    /** The metronome button: flip enabled, then start the metronome or stop it. */
    method ToggleMetronome(now: real) returns (clicks: seq<Metro.Click>)
      requires Valid()
      modifies metro
      ensures Valid()
      ensures metro.enabled == !old(metro.enabled)
      ensures metro.enabled ==> Restarted(now, clicks)
      ensures !metro.enabled ==> clicks == [] && !metro.armed
    {
      metro.enabled := !metro.enabled;
      if metro.enabled {
        clicks := metro.Start(Config(), now);
      } else {
        metro.Stop();
        clicks := [];
      }
    }

    /** The scheduler's timer fires: run one `metronomeScheduler` pass. */
    method TimerFires(now: real) returns (clicks: seq<Metro.Click>)
      requires Valid() && metro.armed
      modifies metro
      ensures Valid() && metro.armed
      ensures clicks == Metro.Schedule(Config(), Metro.Cursor(old(metro.nextTime), old(metro.index)), |clicks|)
      ensures Metro.Cursor(metro.nextTime, metro.index)
              == Metro.Walk(Config(), Metro.Cursor(old(metro.nextTime), old(metro.index)), |clicks|)
      ensures forall k :: 0 <= k < |clicks| ==> clicks[k].time < now + Metro.Ahead
      ensures metro.enabled == old(metro.enabled)
      ensures metro.nextTime >= now + Metro.Ahead
              || (|clicks| > 0
                  && Metro.PulseDuration(Config(),
                       Metro.Walk(Config(), Metro.Cursor(old(metro.nextTime), old(metro.index)), |clicks| - 1).index) <= 0.0)
    {
      clicks := metro.Tick(Config(), now);
    }

    /** Every track's history can take a push: bounded, with the pointer at -1 or above. */
    ghost predicate Pushable()
      reads this, Tracks()
    {
      forall k :: 0 <= k < |tracks| ==> -1 <= tracks[k].pointer && |tracks[k].history| <= MaxHistory
    }

    /** `pushHistory` on the first `count` tracks, in order. */
    method PushTracks(count: nat)
      requires Shape() && Pushable() && count <= N
      modifies Tracks()
      ensures Shape()
      ensures forall k :: 0 <= k < N ==>
                tracks[k].buffer == old(tracks[k].buffer) && tracks[k].voice == old(tracks[k].voice)
      ensures forall k :: 0 <= k < count ==>
                PushedFrom(tracks[k], old(tracks[k].history), old(tracks[k].pointer)) && tracks[k].Valid()
      ensures forall k :: count <= k < N ==>
                tracks[k].history == old(tracks[k].history) && tracks[k].pointer == old(tracks[k].pointer)
    {
      var j := 0;
      while j < count
        invariant j <= count && Shape()
        invariant forall k :: 0 <= k < N ==>
                    tracks[k].buffer == old(tracks[k].buffer) && tracks[k].voice == old(tracks[k].voice)
        invariant forall k :: j <= k < N ==>
                    tracks[k].history == old(tracks[k].history) && tracks[k].pointer == old(tracks[k].pointer)
        invariant forall k :: 0 <= k < j ==>
                    PushedFrom(tracks[k], old(tracks[k].history), old(tracks[k].pointer)) && tracks[k].Valid()
      {
        PushTrack(j, false);
        assert PushedFrom(tracks[j], old(tracks[j].history), old(tracks[j].pointer));
        j := j + 1;
      }
    }

    /** The conformations of the apply-loop handler's `tracks.map`, track by track: `fitOrScale`
        of each buffer, nothing for an empty track. A conformation that cannot allocate (fewer
        than one sample) throws and ends the handler: `done` counts the tracks the map reached. */
    method ConformBuffers(newLen: real, mode: FitMode) returns (cs: seq<Option<Buffer>>, done: nat, ok: bool)
      requires Valid() && newLen > 0.0
      ensures done <= N && |cs| == done
      ensures ok ==> done == N
      ensures !ok ==> 1 <= done && tracks[done - 1].buffer.Some? && cs[done - 1].None?
      ensures forall k :: 0 <= k < done ==> ConformedAs(cs[k], tracks[k].buffer, store, newLen, mode)
      ensures forall k :: 0 <= k < done ==> (tracks[k].buffer.Some? <==> cs[k].Some?) || (!ok && k == done - 1)
    {
      cs := [];
      done := 0;
      ok := true;
      while ok && done < N
        invariant done <= N && |cs| == done
        invariant !ok ==> 1 <= done && tracks[done - 1].buffer.Some? && cs[done - 1].None?
        invariant forall k :: 0 <= k < done ==> ConformedAs(cs[k], tracks[k].buffer, store, newLen, mode)
        invariant forall k :: 0 <= k < done ==> (tracks[k].buffer.Some? <==> cs[k].Some?) || (!ok && k == done - 1)
      {
        var c: Option<Buffer> := None;
        var b := tracks[done].buffer;
        if b.Some? {
          c := FitOrScale(store[b.value], newLen, mode);
        }
        cs := cs + [c];
        done := done + 1;
        ok := !(b.Some? && c.None?);
      }
    }

    /** A new buffer `b` stored and applied to track `j`. */
    method ApplyNew(j: nat, b: Buffer, now: real)
      requires Shape() && j < N && Playable(b)
      modifies this, tracks[j]
      ensures Shape()
      ensures nextId == old(nextId) + 1 && store == old(store)[old(nextId) := b]
      ensures tracks[j].buffer == Some(old(nextId)) && tracks[j].voice == VoiceFor(old(nextId), store, now, playing, startAt, loopLen)
      ensures tracks[j].history == old(tracks[j].history) && tracks[j].pointer == old(tracks[j].pointer)
      ensures forall k :: 0 <= k < N && k != j ==>
                tracks[k].buffer == old(tracks[k].buffer) && tracks[k].voice == old(tracks[k].voice)
                && tracks[k].history == old(tracks[k].history) && tracks[k].pointer == old(tracks[k].pointer)
                && (tracks[k].buffer.Some? ==> store[tracks[k].buffer.value] == old(store[tracks[k].buffer.value]))
      ensures loopLen == old(loopLen) && playing == old(playing) && startAt == old(startAt)
      ensures schedule == old(schedule) && settings == old(settings) && measure == old(measure)
    {
      var id := StoreBuffer(b);
      ApplyBufferToTrack(j, Some(id), now);
    }

    /** The apply-loop handler's `tracks.forEach`: every conformed buffer becomes a new stored buffer
        applied to its track; tracks with nothing conformed are skipped. */
    method ApplyAll(cs: seq<Option<Buffer>>, now: real)
      requires Shape() && |cs| == N
      requires forall k :: 0 <= k < N && cs[k].Some? ==> Playable(cs[k].value)
      modifies this, Tracks()
      ensures Shape()
      ensures forall k :: 0 <= k < N ==>
                tracks[k].history == old(tracks[k].history) && tracks[k].pointer == old(tracks[k].pointer)
      ensures forall k :: 0 <= k < N && cs[k].None? ==>
                tracks[k].buffer == old(tracks[k].buffer) && tracks[k].voice == old(tracks[k].voice)
      ensures forall k :: 0 <= k < N && cs[k].Some? ==>
                tracks[k].buffer.Some? && store[tracks[k].buffer.value] == cs[k].value
                && tracks[k].voice == VoiceFor(tracks[k].buffer.value, store, now, playing, startAt, loopLen)
      ensures loopLen == old(loopLen) && playing == old(playing) && startAt == old(startAt)
      ensures schedule == old(schedule) && settings == old(settings) && measure == old(measure)
    {
      var j := 0;
      while j < N
        invariant j <= N && Shape()
        invariant forall k :: 0 <= k < N ==>
                    tracks[k].history == old(tracks[k].history) && tracks[k].pointer == old(tracks[k].pointer)
        invariant forall k :: 0 <= k < N && (j <= k || cs[k].None?) ==>
                    tracks[k].buffer == old(tracks[k].buffer) && tracks[k].voice == old(tracks[k].voice)
        invariant forall k :: 0 <= k < j && cs[k].Some? ==>
                    tracks[k].buffer.Some? && store[tracks[k].buffer.value] == cs[k].value
                    && tracks[k].voice == VoiceFor(tracks[k].buffer.value, store, now, playing, startAt, loopLen)
        invariant loopLen == old(loopLen) && playing == old(playing) && startAt == old(startAt)
        invariant schedule == old(schedule) && settings == old(settings) && measure == old(measure)
      {
        if cs[j].Some? {
          ApplyNew(j, cs[j].value, now);
        }
        j := j + 1;
      }
    }

    /** The first half of the apply-loop handler's work on an existing loop (its `tracks.map`):
        every track reached is pushed and its buffer conformed. Track `k` holds history `h0[k]`,
        pointer `p0[k]` and buffer `b0[k]` of store `st0`. */
    method ConformAndPush(newLen: real, mode: FitMode, ghost h0: seq<seq<Entry>>, ghost p0: seq<int>,
                          ghost b0: seq<Entry>, ghost st0: map<BufId, Buffer>)
      returns (cs: seq<Option<Buffer>>, ok: bool, reached: nat)
      requires Valid() && newLen > 0.0 && |h0| == N && |p0| == N && |b0| == N && st0 == store
      requires forall k :: 0 <= k < N ==>
                 tracks[k].history == h0[k] && tracks[k].pointer == p0[k] && tracks[k].buffer == b0[k]
      modifies Tracks()
      ensures Shape() && Pushable() && |cs| == N
      ensures forall k :: 0 <= k < N ==>
                tracks[k].buffer == b0[k] && tracks[k].voice == old(tracks[k].voice)
      ensures ok ==> forall k :: 0 <= k < N ==>
                PushedFrom(tracks[k], h0[k], p0[k])
                && ConformedAs(cs[k], b0[k], st0, newLen, mode)
                && (cs[k].Some? <==> b0[k].Some?)
                && (cs[k].Some? ==> Playable(cs[k].value))
      ensures reached <= N && (ok ==> reached == N)
      ensures !ok ==> 1 <= reached && b0[reached - 1].Some? && ConformedAs(None, b0[reached - 1], st0, newLen, mode)
      ensures !ok ==> Valid() && forall k :: 0 <= k < N ==>
                (k < reached ==> PushedFrom(tracks[k], h0[k], p0[k]))
                && (reached <= k ==> tracks[k].history == h0[k] && tracks[k].pointer == p0[k])
    {
      cs, reached, ok := ConformBuffers(newLen, mode);
      if ok {
        assert forall k :: 0 <= k < N ==>
          ConformedAs(cs[k], b0[k], st0, newLen, mode) && (cs[k].Some? <==> b0[k].Some?);
        forall k | 0 <= k < N && cs[k].Some?
          ensures Playable(cs[k].value)
        {
          ConformedPlayable(cs[k], b0[k], st0, newLen, mode);
        }
      } else {
        cs := seq(N, _ => None);
      }
      PushTracks(reached);
    }

    /** The apply-loop handler's `tracks.forEach` over conformations `cs` of buffers `b0` in store
        `st0`: every track given a conformation holds a new buffer storing it. */
    method ApplyConformed(cs: seq<Option<Buffer>>, newLen: real, mode: FitMode, now: real,
                          ghost b0: seq<Entry>, ghost st0: map<BufId, Buffer>)
      requires Shape() && |cs| == N && |b0| == N
      requires forall k :: 0 <= k < N ==>
                 tracks[k].buffer == b0[k] && ConformedAs(cs[k], b0[k], st0, newLen, mode)
                 && (cs[k].Some? <==> b0[k].Some?)
      requires forall k :: 0 <= k < N && cs[k].Some? ==> Playable(cs[k].value)
      modifies this, Tracks()
      ensures Shape()
      ensures forall k :: 0 <= k < N ==>
                tracks[k].history == old(tracks[k].history) && tracks[k].pointer == old(tracks[k].pointer)
      ensures forall k :: 0 <= k < N && b0[k].None? ==>
                tracks[k].buffer.None? && tracks[k].voice == old(tracks[k].voice)
      ensures forall k :: 0 <= k < N && b0[k].Some? ==>
                tracks[k].buffer.Some? && tracks[k].buffer.value in store
                && ConformedAs(Some(store[tracks[k].buffer.value]), b0[k], st0, newLen, mode)
                && tracks[k].voice == VoiceFor(tracks[k].buffer.value, store, now, playing, startAt, loopLen)
      ensures loopLen == old(loopLen) && playing == old(playing) && startAt == old(startAt)
      ensures schedule == old(schedule) && settings == old(settings) && measure == old(measure)
    {
      ApplyAll(cs, now);
      forall k | 0 <= k < N && b0[k].Some?
        ensures ConformedAs(Some(store[tracks[k].buffer.value]), b0[k], st0, newLen, mode)
      {
        assert cs[k] == Some(store[tracks[k].buffer.value]);
      }
    }

    /** The second half: the conformed buffers are applied, the new length set, and every history
        pushed again. Track `k` arrives pushed once from `h0[k]` at `p0[k]`, holding `b0[k]`, and
        `cs[k]` is the conformation of that buffer in store `st0`. */
    method ApplyAndPush(cs: seq<Option<Buffer>>, newLen: real, mode: FitMode, now: real, ghost h0: seq<seq<Entry>>,
                        ghost p0: seq<int>, ghost b0: seq<Entry>, ghost st0: map<BufId, Buffer>)
      requires Shape() && Pushable() && |cs| == N && newLen > 0.0 && |h0| == N && |p0| == N && |b0| == N
      requires forall k :: 0 <= k < N ==>
                 PushedFrom(tracks[k], h0[k], p0[k]) && tracks[k].buffer == b0[k]
                 && ConformedAs(cs[k], b0[k], st0, newLen, mode) && (cs[k].Some? <==> b0[k].Some?)
      requires forall k :: 0 <= k < N && cs[k].Some? ==> Playable(cs[k].value)
      modifies this, Tracks()
      ensures Valid()
      ensures loopLen == Some(newLen)
      ensures playing == old(playing) && startAt == old(startAt)
      ensures schedule == old(schedule) && settings == old(settings) && measure == old(measure)
      ensures forall k :: 0 <= k < N ==> PushedTwice(tracks[k], h0[k], p0[k], b0[k])
      ensures forall k :: 0 <= k < N && b0[k].None? ==>
                tracks[k].buffer.None? && tracks[k].voice == old(tracks[k].voice)
      ensures forall k :: 0 <= k < N && b0[k].Some? ==>
                tracks[k].buffer.Some? && tracks[k].buffer.value in store
                && ConformedAs(Some(store[tracks[k].buffer.value]), b0[k], st0, newLen, mode)
                && tracks[k].voice == VoiceFor(tracks[k].buffer.value, store, now, playing, startAt, old(loopLen))
    {
      ApplyConformed(cs, newLen, mode, now, b0, st0);
      loopLen := Some(newLen);
      PushAgain(h0, p0, b0);
    }

    /** The closing `pushHistory` of every track, each of which was pushed once before from `h0[k]`
        at `p0[k]` holding `b0[k]` and has kept its history since. */
    method PushAgain(ghost h0: seq<seq<Entry>>, ghost p0: seq<int>, ghost b0: seq<Entry>)
      requires Shape() && Pushable() && |h0| == N && |p0| == N && |b0| == N
      requires forall k :: 0 <= k < N ==>
                 -1 <= p0[k] && tracks[k].history == Push(h0[k], p0[k], b0[k])
                 && tracks[k].pointer == |tracks[k].history| - 1
      modifies Tracks()
      ensures Shape()
      ensures forall k :: 0 <= k < N ==> PushedTwice(tracks[k], h0[k], p0[k], b0[k]) && tracks[k].Valid()
      ensures forall k :: 0 <= k < N ==>
                tracks[k].buffer == old(tracks[k].buffer) && tracks[k].voice == old(tracks[k].voice)
    {
      PushTracks(N);
      forall k | 0 <= k < N
        ensures PushedTwice(tracks[k], h0[k], p0[k], b0[k])
      {
        assert PushedFrom(tracks[k], old(tracks[k].history), old(tracks[k].pointer));
      }
    }

    /** Every track's history, in track order. */
    ghost function Histories(): (h: seq<seq<Entry>>)
      reads this, Tracks()
      requires |tracks| == N
      ensures |h| == N && forall k :: 0 <= k < N ==> h[k] == tracks[k].history
    {
      seq(N, k requires 0 <= k < N reads this, Tracks() => tracks[k].history)
    }

    /** Every track's history pointer, in track order. */
    ghost function Pointers(): (p: seq<int>)
      reads this, Tracks()
      requires |tracks| == N
      ensures |p| == N && forall k :: 0 <= k < N ==> p[k] == tracks[k].pointer
    {
      seq(N, k requires 0 <= k < N reads this, Tracks() => tracks[k].pointer)
    }

    /** Every track's buffer, in track order. */
    ghost function Buffers(): (b: seq<Entry>)
      reads this, Tracks()
      requires |tracks| == N
      ensures |b| == N && forall k :: 0 <= k < N ==> b[k] == tracks[k].buffer
    {
      seq(N, k requires 0 <= k < N reads this, Tracks() => tracks[k].buffer)
    }

    /** Track `t` after a completed apply-loop, having held history `h0`, pointer `p0`, buffer `b0`
        and voice `v0` of store `st0`: pushed twice; an empty track keeps its voice; any other holds
        a new buffer storing the conformation of `b0` at `newLen`, with the voice `VoiceFor` it at
        the old loop length `len0`. */
    ghost predicate Reconformed(t: Track, h0: seq<Entry>, p0: int, b0: Entry, v0: Option<Voice>,
                                st0: map<BufId, Buffer>, newLen: real, mode: FitMode, now: real, len0: Option<real>)
      reads this, t
      requires len0.Some? ==> len0.value > 0.0
    {
      PushedTwice(t, h0, p0, b0)
      && (b0.None? ==> t.buffer.None? && t.voice == v0)
      && (b0.Some? ==>
            t.buffer.Some? && t.buffer.value in store
            && ConformedAs(Some(store[t.buffer.value]), b0, st0, newLen, mode)
            && t.voice == VoiceFor(t.buffer.value, store, now, playing, startAt, len0))
    }

    /** Track number `k` after an apply-loop that stopped once `reached` tracks were reached: its
        buffer and voice are kept; it is pushed once if it was reached and untouched otherwise. */
    ghost predicate StoppedAt(t: Track, k: nat, reached: nat, h0: seq<Entry>, p0: int, b0: Entry, v0: Option<Voice>)
      reads t
    {
      t.buffer == b0 && t.voice == v0
      && (k < reached ==> PushedFrom(t, h0, p0))
      && (reached <= k ==> t.history == h0 && t.pointer == p0)
    }

    /** The apply-loop handler on an existing loop: push and conform every track, then apply the
        conformed buffers, set the new length and push every history again. A conformation that
        throws ends it with the tracks reached so far pushed once and nothing else changed. Track
        `k` holds history `h0[k]`, pointer `p0[k]` and buffer `b0[k]` on entry. */
    method Reconform(newLen: real, mode: FitMode, now: real, ghost h0: seq<seq<Entry>>, ghost p0: seq<int>,
                     ghost b0: seq<Entry>) returns (ok: bool, reached: nat)
      requires Valid() && loopLen.Some? && newLen > 0.0 && |h0| == N && |p0| == N && |b0| == N
      requires forall k :: 0 <= k < N ==>
                 tracks[k].history == h0[k] && tracks[k].pointer == p0[k] && tracks[k].buffer == b0[k]
      modifies this, Tracks()
      ensures Valid()
      ensures measure == old(measure) && settings == old(settings)
      ensures playing == old(playing) && startAt == old(startAt) && schedule == old(schedule)
      ensures reached <= N && (ok ==> reached == N)
      ensures !ok ==>
                loopLen == old(loopLen) && store == old(store)
                && 1 <= reached && b0[reached - 1].Some? && ConformedAs(None, b0[reached - 1], old(store), newLen, mode)
                && forall k :: 0 <= k < N ==> StoppedAt(tracks[k], k, reached, h0[k], p0[k], b0[k], old(tracks[k].voice))
      ensures ok ==>
                loopLen == Some(newLen)
                && forall k :: 0 <= k < N ==>
                     Reconformed(tracks[k], h0[k], p0[k], b0[k], old(tracks[k].voice), old(store), newLen, mode, now, old(loopLen))
    {
      var cs;
      cs, ok, reached := ConformAndPush(newLen, mode, h0, p0, b0, store);
      if ok {
        ApplyAndPush(cs, newLen, mode, now, h0, p0, b0, old(store));
      }
    }

    /** The apply-loop button. The new length is the typed number of measures (at least one) times
        the measure. Without a loop it only sets the length; with one, see `Reconform`. */
    method ApplyLoop(typed: Option<real>, mode: FitMode, now: real) returns (ok: bool, reached: nat)
      requires Valid()
      modifies this, Tracks()
      ensures Valid()
      ensures measure == old(measure) && settings == old(settings)
      ensures playing == old(playing) && startAt == old(startAt) && schedule == old(schedule)
      ensures ok ==> loopLen == Some(ApplyLoopLength(typed, measure))
      ensures !ok ==> loopLen == old(loopLen)
      ensures old(loopLen).None? ==>
                ok && reached == 0 && store == old(store)
                && forall k :: 0 <= k < N ==>
                  tracks[k].history == old(tracks[k].history) && tracks[k].pointer == old(tracks[k].pointer)
                  && tracks[k].buffer == old(tracks[k].buffer) && tracks[k].voice == old(tracks[k].voice)
      ensures old(loopLen).Some? && ok ==>
                reached == N
                && forall k :: 0 <= k < N ==>
                     Reconformed(tracks[k], old(tracks[k].history), old(tracks[k].pointer), old(tracks[k].buffer),
                                 old(tracks[k].voice), old(store), ApplyLoopLength(typed, measure), mode, now, old(loopLen))
      ensures old(loopLen).Some? && !ok ==>
                store == old(store) && 1 <= reached <= N && old(tracks[reached - 1].buffer).Some?
                && ConformedAs(None, old(tracks[reached - 1].buffer), old(store), ApplyLoopLength(typed, measure), mode)
                && forall k :: 0 <= k < N ==>
                     StoppedAt(tracks[k], k, reached, old(tracks[k].history), old(tracks[k].pointer),
                               old(tracks[k].buffer), old(tracks[k].voice))
    {
      var newLen := ApplyLoopLength(typed, measure);
      if loopLen.None? {
        loopLen := Some(newLen);
        return true, 0;
      }
      ghost var h0, p0, b0 := Histories(), Pointers(), Buffers();
      ok, reached := Reconform(newLen, mode, now, h0, p0, b0);
    }
  }
}
