# LOOPER8 looper core in Dafny

LOOPER8 is a browser-based eight-track audio looper. Its logic lives in `js/looper.js`. This
project models the parts of that file that are arithmetic or state logic, not audio I/O:

- **Undo/redo history.** Each track has a bounded list of buffer identities (at most 10) with a
  pointer, and the buttons that step through it. Recording, clearing and re-conforming a track
  bracket their change with history pushes.
- **Transport arithmetic.** Measure length from tempo and time signature; the tempo clamp;
  snapping the loop to whole measures; sizing the loop from the first take; aligning playback,
  the metronome and overdubs to the loop grid.
- **Metronome scheduler.** A look-ahead loop emits clicks (time, accent) with swing on
  eighth notes, and re-arms its timer.
- **Buffer conforming.** Down-mix with edge fades; fit (trim or zero-pad) to the loop; stretch by
  linear interpolation; normalise to the loop; the overdub head trim; the fallback recorder
  that collects and joins sample chunks.
- **Mixer.** The per-track gain is the volume slider times a mute/solo gate.
- **FX chain.** Per-track effect settings, the parameter values they drive, and the node graph
  that `connectFxChain` wires from the on/off flags.
- **WAV export.** The exact byte layout `encodeWAV` produces.

Files and modules:

| file | module | what it holds |
|---|---|---|
| `jsnum.dfy` | `JsNum` | `Option`; JavaScript `Math.floor`, `Math.ceil`, `Math.round` and `Math.trunc`; JavaScript `%` |
| `tempo.dfy` | `Tempo` | measure length, tempo entry, loop sizing, grid alignment, record window, playback offset |
| `metronome.dfy` | `Metronome` | pulse durations and accents, the click schedule as a function, the scheduler class |
| `history.dfy` | `History` | `pushHistory` on sequences, undo/redo pointers, the `Track` class |
| `audio.dfy` | `Audio` | fades, fit, stretch, normalise, overdub trim (array methods checked against sequence functions) |
| `recorder.dfy` | `Recorder` | the fallback recorder class |
| `mix.dfy` | `Mix` | the gain gate and the `Mixer` class |
| `fx.dfy` | `Fx` | effect settings, parameter targets, the wiring table and the `FxTrack` class |
| `wav.dfy` | `Wav` | the WAV byte layout and the method that writes it into a byte array |
| `looper.dfy` | `Looper` | the `Looper` class: tracks, transport, recording completion, tempo controls, apply-loop |

Modelling choices:

- Times and samples are Dafny `real`s, not IEEE doubles.
- Audio-clock time is an explicit parameter `now`. It is constant during one call.
- An audio buffer is an opaque identity `BufId`, handed out by a counter. A new buffer object is
  therefore never equal to an old one, just as JavaScript compares objects by reference. The
  `Looper` class keeps a store from identities to sample data.
- A playing source is a `Voice` record: the track's buffer, the samples it plays (that buffer
  after `normalizeToLoop`), start time, offset, loop end.
- A metronome click is a `Click` record (time, accent).
- A node connection is an entry in a successor map.

Where the project's design description and the code disagree, the model follows the code:

- An overdub take is head-trimmed and zero-padded. It is not wrapped around the loop.
- The first recording rounds its length to the nearest whole measure, not up.
- During apply-loop, `applyBufferToTrack` runs before the new length is stored. So a track that is
  playing gets a voice that normalises its newly conformed buffer back to the old loop length.
  The model does the same: `VoiceFor` is taken with the old length and `Played` re-fits the buffer.

## Model

| member | source | states |
|---|---|---|
| JsNum.Floor | js/looper.js:290 | `Math.floor`: the greatest integer at or below `x` |
| JsNum.Ceil | js/looper.js:273 | `Math.ceil`: the least integer at or above `x` |
| JsNum.Round | js/looper.js:204 | `Math.round`: `floor(x + 0.5)`, so halves round up |
| JsNum.Rem | js/looper.js:453 | JavaScript `%`: the remainder keeps the dividend's sign, is smaller than the divisor in magnitude, and differs from the dividend by a whole multiple |
| Tempo.MeasureLength | js/looper.js:192-197 | the measure is positive and satisfies `m * bpm * tsBottom == 240 * tsTop`, i.e. `(60/bpm) * tsTop * (4/tsBottom)` |
| Tempo.TypedBpm | js/looper.js:319-325 | the typed tempo lies in [40, 240]; 120 for a non-number or 0; the typed value when in range; the nearer bound otherwise |
| Tempo.WholeMeasures | js/looper.js:204 | the re-snap measure count is at least 1 |
| Tempo.SnappedLoop | js/looper.js:203-206 | a re-snapped loop is at least one measure and a whole number of measures |
| Tempo.WholeMeasuresIsNearest | js/looper.js:204 | no whole count from 1 up is closer to `len / measure` than the chosen one |
| Tempo.SnapIsNearestWholeMeasure | js/looper.js:203-206 | no loop of a whole number (at least 1) of measures is closer to the old length than the re-snapped one |
| Tempo.CloserInMeasures | js/looper.js:204-206 | ordering by distance in measures is ordering by distance in seconds |
| Tempo.FirstRecordingRoundsToNearest | js/looper.js:515-521 | a take of 1.4 measures sizes a 1-measure loop and one of 1.5 measures a 2-measure loop |
| Tempo.MeasuresEntry | js/looper.js:586 | the measures box reads at least 1; the fallback for an empty or zero entry; the entry itself from 1 up |
| Tempo.ApplyLoopLength | js/looper.js:586-590 | the applied length is at least one measure, whole measures for a whole entry, one measure for an empty entry |
| Tempo.PlayLoopLength | js/looper.js:367-372 | the play button's loop is at least one measure, four measures for an empty box |
| Tempo.NextBoundary | js/looper.js:288-292 | the next grid point is strictly after `now`, at most one period later, and on the grid |
| Tempo.NextBoundaryIsLeast | js/looper.js:288-292 | no grid point after `now` comes before it |
| Tempo.GridCeil | js/looper.js:273-274 | the grid point at or after `t`, less than one period later; `t` itself when on the grid |
| Tempo.GridCeilIsLeast | js/looper.js:273-274 | no grid point at or after `now` comes before it |
| Tempo.PlayStart | js/looper.js:382-385 | playback starts at a multiple of the loop length, strictly after `now`, within one loop |
| Tempo.MetronomeStart | js/looper.js:288-294 | the first click comes after `now` within one measure: on the loop's measure grid while playing, one measure from now otherwise |
| Tempo.RecordWindow | js/looper.js:499 | an overdub boundary is on the loop grid, after the pre-roll and margin when the loop allows it, within two loops; the stop time is one loop plus the tail later |
| Tempo.ElapsedAsWritten | js/looper.js:453 | the written offset is within one loop length of zero in either direction and differs from `now - startAt` by whole loops |
| Tempo.ElapsedNegativeBeforeFirstStart | js/looper.js:453 | before the first loop start the written offset is `now - startAt`, which is negative |
| Tempo.LoopPhase | js/looper.js:452-454 | the corrected offset lies in [0, loopLen), is on the loop grid relative to `now`, and equals the written one once the loop has started |
| Tempo.PhaseOfShiftedStart | js/looper.js:452-454 | the loop phase does not change when the loop's start moves by whole loop lengths |
| Metronome.Total | js/looper.js:234 | a valid configuration has at least one subdivision per measure |
| Metronome.AccentOnlyOnDownbeat | js/looper.js:239-244 | a subdivision is accented exactly when it is subdivision 0 of beat 0 |
| Metronome.SwingPairIsOneBeat | js/looper.js:250-260 | under swing the on-beat lasts `beat * (0.5 + swing/200)`, the pair lasts one beat, and the on-beat is the longer |
| Metronome.SwungFirstIsLonger | js/looper.js:252-253 | the swung on-beat is longer than the off-beat |
| Metronome.StraightOffset | js/looper.js:247 | without swing, subdivision `n` starts `n` equal pulses into the measure |
| Metronome.SwungOffset | js/looper.js:250-260 | under swing, every pair of eighths starts on a beat |
| Metronome.PulsesFillMeasure | js/looper.js:234-260 | the pulses of one measure add up to exactly the measure length |
| Metronome.MeasureSnap | js/looper.js:269-275 | the corrected wrap: the next downbeat is at or after the advanced time, within one measure; on the loop grid while playing; unchanged when stopped or already on the grid |
| Metronome.ScheduleAt | js/looper.js:238-266 | click `k` of a schedule is the click at the cursor after `k` steps |
| Metronome.StepAdvances | js/looper.js:265 | each step moves the cursor forward by at least the pulse just played |
| Metronome.WalkWithinMeasure | js/looper.js:238-266 | within a measure the cursor sits at the downbeat plus the accumulated pulses |
| Metronome.MeasureIsExact | js/looper.js:264-275 | one measure of steps from a downbeat lands on the next downbeat, exactly one measure later, with the index reset to 0 |
| Metronome.WalkConcat | js/looper.js:238-266 | walking `a + b` steps is walking `a` then `b` |
| Metronome.MeasuresDoNotDrift | js/looper.js:264-275 | after `q` whole measures the cursor is exactly `q` measures after the downbeat |
| Metronome.OneAccentPerMeasure | js/looper.js:239-244 | within one measure from a downbeat only the first click is accented |
| Metronome.QuarterNotesAt120 | js/looper.js:234-247 | in 4/4 at 120 BPM with quarter pulses, every click lasts 0.5 s |
| Metronome.HalfSwingOnEighths | js/looper.js:250-260 | 50% swing on half-second beats gives 0.375 s then 0.125 s |
| Metronome.PulseAtLeastMin | js/looper.js:247-260 | every pulse lasts at least that bound |
| Metronome.AsWrittenSchedulerNeverExits | js/looper.js:238-278 | with one subdivision per measure, the written wrap lands back inside the horizon with a positive pulse, so the `while` never exits |
| Metronome.AsWrittenLoopNeverEnds | js/looper.js:238-278 | with one subdivision per measure, every position the written loop reaches is inside the horizon with a positive pulse |
| Metronome.AsWrittenStoppedDownbeatIsNow | js/looper.js:268-275 | with the transport stopped, the written wrap moves the next downbeat to `now`; the corrected step keeps it one pulse on |
| Metronome.Metronome.constructor | js/looper.js:16-22 | disabled, no timer, cursor at time 0, index 0 |
| Metronome.Metronome.Tick | js/looper.js:229-281 | the scheduler with the corrected measure wrap (`MeasureSnap`): nothing when disabled; otherwise the clicks are the schedule from the old cursor, each before `now + 0.12`, the new cursor is the walk's end, the index stays inside the measure, the timer is re-armed, and the loop stops at the horizon or the safety break |
| Metronome.Metronome.Advance | js/looper.js:239-266 | one loop pass with the corrected wrap: the click at the cursor, its pulse, and the `Step` cursor |
| Metronome.Metronome.TickAsWritten | js/looper.js:229-281 | the scheduler as written, for at most `fuel` passes: the clicks are `ScheduleAsWritten` from the old cursor, each before the horizon, and the new cursor is the `WalkAsWritten` end; when the loop ends by itself the timer is re-armed and the horizon is reached or the last pulse was not positive; otherwise the fuel is spent with the cursor inside the horizon; with one subdivision per measure and the pending click inside the horizon the loop never ends |
| Metronome.Metronome.AdvanceAsWritten | js/looper.js:239-275 | one loop pass as written: the click at the cursor, its pulse, and the `StepAsWritten` cursor, which snaps from `now` at a wrap |
| Metronome.Metronome.Start | js/looper.js:283-299 | a no-op when disabled or already running; otherwise the corrected schedule from `MetronomeStart`, with the timer armed |
| Metronome.Metronome.Stop | js/looper.js:301-304 | the timer is cleared and nothing else changes |
| History.Kept | js/looper.js:417-419 | a push keeps the entries up to the pointer and drops the rest |
| History.Push | js/looper.js:414-431 | after a push the last entry is the current buffer and a history within the cap stays within it |
| History.PushKeepsPrefix | js/looper.js:414-431 | the push result is the kept part plus the buffer (unless it is already last), minus the oldest entry beyond the cap |
| History.PushIsIdempotent | js/looper.js:421-424 | pushing the same buffer twice changes nothing the second time |
| History.PushAtHeadIsNoOp | js/looper.js:417-429 | at the head of a history that ends in the current buffer, a push changes nothing |
| History.PushFrom | js/looper.js:414-431 | a push introduces no entry other than the current buffer |
| History.PushAfterUndoDropsRedo | js/looper.js:417-419 | a push after an undo discards every entry after the pointer |
| History.PushOnFullDropsOldest | js/looper.js:426-428 | a new buffer on a full history drops the oldest entry |
| History.UndoDisabledIffNoOp | js/looper.js:469-495 | Undo is disabled exactly when undo is a no-op; otherwise undo moves the pointer back one |
| History.RedoDisabledIffNoOp | js/looper.js:479-495 | Redo is disabled exactly when redo is a no-op; otherwise redo moves the pointer forward one |
| History.UndoRedoRoundTrip | js/looper.js:469-487 | undo then redo, and redo then undo, return to the same pointer |
| History.Recorded | js/looper.js:503-530 | after a completed recording the history ends in the new take |
| History.UndoAfterRecordingRestores | js/looper.js:503-530 | one undo after a recording returns to the state before it |
| History.RecordAtHead | js/looper.js:503-530 | a recording at the head of a history with room appends the take |
| History.RecordAfterUndoForgetsRedoBranch | js/looper.js:414-431 | record three takes, undo twice, record again: the undone takes are gone and the history is `[null, a, d]` |
| History.CapKeepsLastTen | js/looper.js:426-428 | eleven distinct states keep only the last ten |
| History.Cleared | js/looper.js:563-575 | after a clear the history ends in the empty state |
| History.UndoAfterClearRestores | js/looper.js:563-575 | one undo after clearing a non-empty track brings its buffer back |
| History.ClearingEmptyHeadIsNoOp | js/looper.js:563-575 | clearing an empty track at the head of its history changes nothing |
| History.Track.constructor | js/looper.js:28-40 | a track starts with no buffer, an empty history, pointer -1, and no source |
| History.Track.PushHistory | js/looper.js:414-431 | the history becomes `Push` of the old one, the pointer its last index, and only the current buffer is new |
| Looper.ChoiceOr | js/looper.js:332-341 | a select box reading: the value, or the fallback for an empty or zero value |
| Looper.Complete | js/looper.js:510-522 | an overdub for this track is trimmed to the loop's sample count and consumes its schedule; any other take keeps the schedule, sizes a missing loop to whole measures, and fits the loop exactly when it has a sample |
| Looper.Played | js/looper.js:449 | the source plays `normalizeToLoop` of the stored buffer: the buffer itself within 1 ms of the loop length, else its fit to the loop |
| Looper.FittedTakePlaysAsStored | js/looper.js:449 | a take fitted to the loop at 1000 Hz or more is played exactly as stored |
| Looper.Resumed | js/looper.js:447-455 | a buffer applied while playing starts now, plays `Played` of the buffer, starts at the corrected loop phase and loops over the loop length |
| Looper.Started | js/looper.js:387-396 | on play, a track with a buffer gets a source playing `Played` of it, from offset 0 at `t0`; a track without one gets none |
| Looper.VoiceFor | js/looper.js:446-460 | `applyBufferToTrack` starts a source exactly when playing with a loop, and that source is `Resumed`, at the corrected loop phase |
| Looper.ResumedInStep | js/looper.js:447-455 | a voice started mid-play is at the same place in the loop as the voices play started at `startAt`, at every time |
| Looper.NewTracks | js/looper.js:877-878 | eight distinct fresh tracks, each with the history `[null]` at pointer 0 |
| Looper.Looper.constructor | js/looper.js:873-878 | the looper starts valid, with every history `[null]` at pointer 0, 120 BPM in 4/4, a 2 s measure, no loop, stopped, metronome off |
| Looper.Looper.PushTrack | js/looper.js:414-431 | `pushHistory` on one track (optionally from a pointer forced past the end), with every track and the store left in shape |
| Looper.Looper.ApplyBufferToTrack | js/looper.js:433-467 | the buffer is set and history untouched; the source is `VoiceFor` the buffer; the loop length is cleared exactly when no track holds a buffer; a voice started mid-play is at the corrected loop phase |
| Looper.Looper.Undo | js/looper.js:469-477 | history unchanged; pointer `UndoPointer`; a no-op when Undo is disabled, otherwise the buffer becomes the entry at the new pointer and the voice is `VoiceFor` it (none for an empty entry); a voice started mid-play is at the corrected loop phase |
| Looper.Looper.Redo | js/looper.js:479-487 | history unchanged; pointer `RedoPointer`; a no-op when Redo is disabled, otherwise the buffer becomes the entry at the new pointer and the voice is `VoiceFor` it (none for an empty entry); a voice started mid-play is at the corrected loop phase |
| Looper.Looper.ClearTrack | js/looper.js:563-575 | the history becomes `Cleared` of the old one; the track is empty and silent; the loop length is kept exactly when another track holds a buffer |
| Looper.Looper.StartVoices | js/looper.js:387-396 | every track's source becomes `Started` for its buffer |
| Looper.Looper.StopVoices | js/looper.js:404-408 | every track's source is stopped |
| Looper.Looper.StartPlayback | js/looper.js:378-399 | a no-op when playing or without a loop; otherwise every buffer plays from `PlayStart(now)`, the transport is playing from there, and an enabled idle metronome starts |
| Looper.Looper.StopPlayback | js/looper.js:401-410 | a no-op when stopped; otherwise the timer and every source stop and the transport is stopped |
| Looper.Looper.PressPlay | js/looper.js:365-375 | without a loop, the loop becomes `PlayLoopLength`; when already playing nothing else changes; otherwise playback starts from `PlayStart`, every voice is `Started`, and an enabled idle metronome is `Restarted` while any other keeps its state |
| Looper.Looper.ArmRecording | js/looper.js:499 | over a playing loop the track's schedule is the `RecordWindow` from `now`; otherwise the schedule is untouched |
| Looper.Looper.MakeTake | js/looper.js:510-522 | the take, loop length and schedule are those of `Complete` |
| Looper.Looper.CompleteRecording | js/looper.js:503-557 | the before-push always happens; without a capture or a take nothing else changes; with a take it is stored, applied and pushed as `Recorded`, with the pointer at the end; a voice started mid-play is at the corrected loop phase |
| Looper.Looper.RestartMetronome | js/looper.js:324 | when enabled, the metronome is restarted from the next measure boundary; otherwise nothing is scheduled |
| Looper.Looper.Retempo | js/looper.js:199-212 | the measure follows the new settings and an existing loop is re-snapped to the nearest whole number of new measures |
| Looper.Looper.SetBpmTyped | js/looper.js:319-325 | the tempo becomes `TypedBpm` of the entry, within [40, 240]; the loop is re-snapped; `metro.enabled`, transport (`playing`, `startAt`, schedule), store and `nextId` unchanged; an enabled metronome restarts, a disabled one gives no clicks and stays unarmed |
| Looper.Looper.SetBpmSlider | js/looper.js:326-331 | the tempo becomes the slider value; the loop is re-snapped; `metro.enabled`, transport (`playing`, `startAt`, schedule), store and `nextId` unchanged; an enabled metronome restarts, a disabled one gives no clicks and stays unarmed |
| Looper.Looper.SetTimeTop | js/looper.js:332-336 | the numerator becomes `ChoiceOr(value, 4)`; the loop is re-snapped; `metro.enabled`, transport (`playing`, `startAt`, schedule), store and `nextId` unchanged; an enabled metronome restarts, a disabled one gives no clicks and stays unarmed |
| Looper.Looper.SetTimeBottom | js/looper.js:337-341 | the denominator becomes `ChoiceOr(value, 4)`; the loop is re-snapped; `metro.enabled`, transport (`playing`, `startAt`, schedule), store and `nextId` unchanged; an enabled metronome restarts, a disabled one gives no clicks and stays unarmed |
| Looper.Looper.SetPulses | js/looper.js:348-351 | pulses become `ChoiceOr(value, 1)`; measure, loop, `metro.enabled`, transport, store and `nextId` unchanged; an enabled metronome restarts, a disabled one keeps its state and gives no clicks |
| Looper.Looper.SetSwing | js/looper.js:342-346 | swing is stored; nothing restarts: measure, loop, transport (`playing`, `startAt`, schedule), store and `nextId` unchanged |
| Looper.Looper.ToggleMetronome | js/looper.js:354-359 | enabled flips; the metronome starts when turned on and stops when turned off |
| Looper.Looper.TimerFires | js/looper.js:229-281 | one pass of the corrected scheduler over the looper's configuration: clicks from the old cursor, all before the horizon; on exit the next click is at or past the horizon or the last pulse was not positive; the timer stays armed |
| Looper.Looper.PushTracks | js/looper.js:615 | `pushHistory` on each of the first `count` tracks, in order |
| Looper.Looper.ConformBuffers | js/looper.js:594-598 | each buffer is conformed with `fitOrScale`; an empty track gives nothing; a conformation with no samples ends the handler |
| Looper.Looper.ApplyNew | js/looper.js:600-608 | a new buffer is stored and applied to one track; every other track is untouched; a voice started mid-play is at the corrected loop phase |
| Looper.Looper.ApplyAll | js/looper.js:600-608 | every conformed buffer becomes a new stored buffer on its track; the other tracks are untouched; a voice started mid-play is at the corrected loop phase |
| Looper.Looper.ConformAndPush | js/looper.js:594-598 | every track reached is pushed once and its buffer conformed; a failed conformation stops at the track whose buffer did not conform, with exactly the tracks up to it pushed |
| Looper.Looper.ApplyConformed | js/looper.js:600-608 | every track given a conformation holds a new buffer that stores it; a voice started mid-play is at the corrected loop phase |
| Looper.Looper.ApplyAndPush | js/looper.js:600-615 | the conformations are applied, the new length set, and every history pushed again; a voice started mid-play is at the corrected loop phase |
| Looper.Looper.PushAgain | js/looper.js:615 | the closing push of every track after its first push |
| Looper.Looper.Reconform | js/looper.js:594-616 | with a loop: every track is pushed twice, buffers are conformed and applied, and the loop becomes the new length; on a failed conformation the handler stops at the track whose buffer did not conform, with exactly the tracks up to it pushed once and the store, buffers, voices and loop unchanged; a voice started mid-play is at the corrected loop phase |
| Looper.Looper.ApplyLoop | js/looper.js:582-617 | the new length is `ApplyLoopLength`; without a loop only the length is set; with one, every track is pushed twice, each buffer is replaced by a new one holding its conformation and its voice is `VoiceFor` it at the old length, or on a failed conformation only the tracks up to the failing one are pushed once; a voice started mid-play is at the corrected loop phase |
| Audio.FadeLength | js/looper.js:690 | the fade is `max(1, floor(sec * rate))` samples |
| Audio.Gain | js/looper.js:690 | the fade gain is non-negative and below 1 inside the fade |
| Audio.ScaleIn | js/looper.js:690 | one `o[i] *= t`, ignored out of range |
| Audio.FadeEnds | js/looper.js:690 | the two fade loops of `toMonoWithFades` leave the array as `FadeBoth` of it |
| Audio.FadeBothInterior | js/looper.js:690 | samples outside both fades are unchanged |
| Audio.FadeBothHead | js/looper.js:690 | sample `j` of the fade-in is scaled by gain `j` |
| Audio.FadeBothTail | js/looper.js:690 | sample `j` of the fade-out is scaled by the gain of its distance from the end |
| Audio.FadeBothEdgesSilent | js/looper.js:690 | the first and last samples are silent after the fades |
| Audio.FadeBothAttenuates | js/looper.js:690 | no sample grows in magnitude |
| Audio.Mix | js/looper.js:690 | the down-mix has one sample per frame, each the channel average |
| Audio.FadedMono | js/looper.js:690 | the faded mono buffer keeps the length and rate |
| Audio.ToMonoWithFades | js/looper.js:690 | the method's output is `FadedMono` |
| Audio.FadedMonoQuiet | js/looper.js:690 | the faded mono buffer starts and ends silent |
| Audio.FadedMonoKeepsInterior | js/looper.js:690 | interior samples are the plain mix |
| Audio.FadedMonoFadeIn | js/looper.js:690 | fade-in samples are the mix times the rising gain |
| Audio.FadedMonoFadeOut | js/looper.js:690 | fade-out samples are the mix times the falling gain |
| Audio.Padded | js/looper.js:691 | the prefix of the data followed by zeros, at the wanted length |
| Audio.Fitted | js/looper.js:691 | the fit fails exactly when the loop has no sample; otherwise it has `floor(loopLen * sr)` samples at the same rate |
| Audio.FitBufferToLoop | js/looper.js:691 | the method's output is `Fitted` |
| Audio.FadeTailAt | js/looper.js:691 | the fit's end fade scales only the last fade-length samples |
| Audio.FittedShape | js/looper.js:691 | each fitted sample is the input sample, or zero past the input, scaled only in the end fade |
| Audio.NormalizeToLoop | js/looper.js:693 | the buffer itself when its duration is within 1 ms of the loop, else `Fitted` |
| Audio.NormalizeAfterFitIsIdentity | js/looper.js:693 | normalising a fitted buffer returns it unchanged; `Looper.FittedTakePlaysAsStored` applies it to the buffer a voice plays |
| Audio.InterpAtWhole | js/looper.js:692 | interpolation at a whole index is the sample there |
| Audio.InterpBetween | js/looper.js:692 | an interpolated value lies between its two neighbours |
| Audio.StretchLength | js/looper.js:692 | the stretched buffer has at least one sample |
| Audio.StretchReadsInside | js/looper.js:692 | every stretched sample reads a position inside the source |
| Audio.Resampled | js/looper.js:692 | one interpolated sample per output index |
| Audio.Stretched | js/looper.js:692 | the stretched buffer has the stretch length and the source rate |
| Audio.Conformed | js/looper.js:692 | trim mode is `Fitted`; stretch mode is `Stretched` |
| Audio.InterpolateAt | js/looper.js:692 | one output sample of the stretch loop |
| Audio.FitOrScale | js/looper.js:692 | the method's output is `Conformed` |
| Audio.StretchLengthMatchesLoop | js/looper.js:692 | the stretch has as many samples as the loop, at least 1 |
| Audio.ResampledToSameLength | js/looper.js:692 | stretching to the buffer's own duration keeps the length and every sample |
| Audio.StretchToSameLengthKeepsInterior | js/looper.js:692 | after the fades, a same-length stretch keeps the interior samples |
| Audio.OverdubPre | js/looper.js:513 | `pre` is the whole number of samples captured before the boundary |
| Audio.OverdubTrim | js/looper.js:511-513 | the trimmed take has `max(1, floor(loopLen * sr))` samples; sample `k` is captured sample `pre + k`, or zero once the capture runs out |
| Audio.OverdubOnBoundaryKeepsHead | js/looper.js:513 | a capture started on the boundary keeps its first samples |
| Recorder.TotalIsFlatLength | js/looper.js:698 | the length sum is the number of samples joined |
| Recorder.FlattenAppend | js/looper.js:698 | joining two runs of chunks is joining each and concatenating |
| Recorder.EmptyIffSilent | js/looper.js:698 | the joined buffer is empty exactly when every chunk is empty |
| Recorder.FlattenAt | js/looper.js:698 | sample `j` of chunk `c` sits at the chunk's offset plus `j` |
| Recorder.FallbackRecorder.constructor | js/looper.js:698 | not recording, no chunks, disconnected, at the context's rate |
| Recorder.FallbackRecorder.Start | js/looper.js:698 | ignored while recording; otherwise the chunks are dropped and capture starts |
| Recorder.FallbackRecorder.Process | js/looper.js:698 | a chunk is appended only while recording |
| Recorder.FallbackRecorder.Stop | js/looper.js:698 | a no-op unless recording; the chunks are kept |
| Recorder.FallbackRecorder.GetAudioBuffer | js/looper.js:698 | no buffer exactly when every chunk is empty; otherwise all chunks joined in order, at the recorder's rate |
| Recorder.FallbackRecorder.CopyChunk | js/looper.js:698 | `o.set(a, off)`: the chunk lands right after the samples already copied |
| Mix.Gate | js/looper.js:580 | the gate is 0 or 1, and 1 exactly when not muted and either no solo mode or soloed |
| Mix.VolumeGainIsGated | js/looper.js:578-580 | `setVolume`'s product is the volume times `refreshGains`'s gate |
| Mix.VolumeOrOne | js/looper.js:580 | `Number(vol) || 1`: 0 reads as 1, anything else as itself |
| Mix.RefreshGain | js/looper.js:580 | the corrected refresh gain equals `setVolume`'s |
| Mix.SilencedSliderComesBackAsWritten | js/looper.js:578-580 | a slider at 0 gives gain 0 in `setVolume` but gain 1 after a refresh |
| Mix.RefreshKeepsSliderValue | js/looper.js:580 | corrected, a refresh leaves an open-gated track at its slider value, 0 included |
| Mix.Mixer.constructor | js/looper.js:28-31 | unmuted, unsoloed, sliders at 0.9, no gain nodes |
| Mix.Mixer.CreateGainNodes | js/looper.js:176-178 | every track without a gain node gets one at 0.9; existing nodes are kept |
| Mix.Mixer.SetVolume | js/looper.js:578 | nothing without a node; otherwise the node carries the volume times the gate |
| Mix.Mixer.MoveSlider | js/looper.js:110 | the slider moves and its node, if it exists, takes the slider value times the track's gate, keeping the mixer consistent; other nodes are untouched |
| Mix.Mixer.RefreshGainsAsWritten | js/looper.js:580 | every node carries `(slider or 1) * gate` |
| Mix.Mixer.RefreshGains | js/looper.js:580 | corrected: every node carries its slider times its gate |
| Mix.Mixer.ToggleMute | js/looper.js:576 | the mute flag flips and every gain is refreshed with the corrected `RefreshGains` |
| Mix.Mixer.ToggleSolo | js/looper.js:577 | the solo flag flips and every gain is refreshed with the corrected `RefreshGains` |
| Mix.SoloSilencesOthers | js/looper.js:578-580 | in a consistent mixer, a soloed track silences every unsoloed track |
| Mix.MutedIsSilent | js/looper.js:578-580 | in a consistent mixer, a muted track is silent |
| Fx.DefaultFx | js/looper.js:701-709 | every effect off, with the default values of each field |
| Fx.Set | js/looper.js:781 | a stored setting reads back; every other setting and every on flag is unchanged |
| Fx.SetOwnValue | js/looper.js:781 | storing a setting's own value changes nothing |
| Fx.WithOn | js/looper.js:847 | one effect's flag is set; other flags and every setting are unchanged |
| Fx.TargetsFollowSettings | js/looper.js:780-788 | every parameter a setting drives gets the value the new settings give it; a mix sets wet to `v` and dry to `1 - v` |
| Fx.OtherParamsStay | js/looper.js:780-788 | parameters a setting does not drive keep their values |
| Fx.SetKeepsSynced | js/looper.js:780-788 | a synced track stays synced after a setting and its targets change |
| Fx.Writer | js/looper.js:769-776 | every parameter is driven by some setting the full update visits |
| Fx.SameKeys | js/looper.js:783-787 | which parameters a setting drives does not depend on the value |
| Fx.LastSerial | js/looper.js:749-752 | the end of the serial part of the chain is a node in use |
| Fx.BlocksMakeWiring | js/looper.js:749-766 | the wiring is the serial part plus the delay and reverb blocks |
| Fx.DefaultIsBypass | js/looper.js:747-766 | with every effect off, the input feeds the output and nothing else is connected |
| Fx.EdgesJoinNodesInUse | js/looper.js:744-767 | every connection joins two nodes in use |
| Fx.NodesInUseAreWired | js/looper.js:744-767 | every node in use except the output has a successor, and every one except the input a predecessor |
| Fx.Feeder | js/looper.js:744-767 | a node in use other than the input is fed by a node in use |
| Fx.OnlyDryFeedsReverb | js/looper.js:754-763 | with delay and reverb on, only the delay's dry path feeds the reverb |
| Fx.DryAlsoBypassesReverb | js/looper.js:754-763 | with delay and reverb on, the dry path feeds the output, the reverb and its dry gain |
| Fx.SettingsDoNotRewire | js/looper.js:780-788 | changing a setting value changes no connection |
| Fx.AsWrittenOuts | js/looper.js:747 | as written, only the input's connections are dropped before rewiring |
| Fx.StaleDelayAsWritten | js/looper.js:744-767 | as written, with the compressor on, switching the delay on then off leaves the compressor feeding the unused delay and its wet gain |
| Fx.FxTrack.constructor | js/looper.js:711-742 | a new chain has the default settings, is wired as they say, and its parameters are in sync |
| Fx.FxTrack.Link | js/looper.js:750-766 | one `connect`: a single edge is added |
| Fx.FxTrack.ConnectAsWritten | js/looper.js:744-767 | the input's edges are dropped, every other node keeps its own, and the wiring is added |
| Fx.FxTrack.Connect | js/looper.js:744-767 | corrected: afterwards the connections are exactly the wiring of the current flags |
| Fx.FxTrack.Wire | js/looper.js:749-766 | the connect calls add exactly the wiring of the current flags |
| Fx.FxTrack.WireSerial | js/looper.js:749-752 | the EQ, compressor and phaser stages add their serial edges and return the last node |
| Fx.FxTrack.WireDelay | js/looper.js:754-759 | the delay block's edges are added; the dry path continues when the delay is on |
| Fx.FxTrack.WireDelayDry | js/looper.js:755 | the dry path: last node to dry gain to output |
| Fx.FxTrack.WireDelayWet | js/looper.js:756 | the wet path: last node to delay to wet gain to output |
| Fx.FxTrack.WireFeedback | js/looper.js:757 | the feedback loop: delay to feedback gain to delay |
| Fx.FxTrack.WireReverb | js/looper.js:761-766 | the reverb block's edges, or the last node to output when reverb is off |
| Fx.FxTrack.UpdateFxParam | js/looper.js:780-788 | the setting is stored and its target parameters set; connections unchanged |
| Fx.FxTrack.UpdateAll | js/looper.js:769-778 | every setting is re-applied, so the parameters are in sync, and the chain is rewired with the corrected `Connect` |
| Fx.FxTrack.SetStage | js/looper.js:846-848 | one effect's flag is set and the chain rewired with the corrected `Connect` to match |
| Fx.FxTrack.SetKnob | js/looper.js:849-851 | the setting is stored and the parameters stay in sync; connections unchanged |
| Wav.U32 | js/looper.js:689 | `setUint32`'s reduction modulo 2^32, the identity on values that fit |
| Wav.Le16Value | js/looper.js:689 | a 16-bit little-endian field reads back its value |
| Wav.Le32Value | js/looper.js:689 | a 32-bit little-endian field reads back its value |
| Wav.Scaled | js/looper.js:689 | a clamped sample scaled by 0x8000 when negative and 0x7fff otherwise lies in [-32768, 32767] and keeps its sign |
| Wav.SampleValue | js/looper.js:689 | the stored 16-bit sample lies in [-0x8000, 0x8000) |
| Wav.Pcm | js/looper.js:689 | the PCM data has two bytes per sample |
| Wav.WavLength | js/looper.js:689 | the file is `44 + 2 * len` bytes |
| Wav.RiffFields | js/looper.js:689 | `RIFF`, `36 + 2 * len` and `WAVE` at offsets 0, 4 and 8 |
| Wav.FmtFields | js/looper.js:689 | `fmt `, 16, 1, 1, sr, 2 * sr, 2 and 16 at offsets 12, 16, 20, 22, 24, 28, 32 and 34 |
| Wav.DataFields | js/looper.js:689 | `data` and `2 * len` at offsets 36 and 40 |
| Wav.PcmAt | js/looper.js:689 | sample `i` occupies bytes `2i` and `2i + 1` of the PCM data |
| Wav.SampleField | js/looper.js:689 | sample `i` reads back, as a signed 16-bit value at offset `44 + 2i`, its scaled value |
| Wav.SampleLimits | js/looper.js:689 | clipping: at or above 1 gives 0x7fff, at or below -1 gives -0x8000, 0 gives 0 |
| Wav.SampleMonotone | js/looper.js:689 | a louder sample never stores a smaller value |
| Wav.Put | js/looper.js:689 | a run of bytes lands after the ones already written |
| Wav.WriteTag | js/looper.js:689 | `writeStr`: a four-letter tag lands after the bytes already written |
| Wav.WriteRiff | js/looper.js:689 | bytes 0-11 become the RIFF head |
| Wav.WriteFmt | js/looper.js:689 | bytes 12-35 become the `fmt ` chunk |
| Wav.FmtRates | js/looper.js:689 | bytes 24-31 become the rate and the byte rate |
| Wav.WriteDataHead | js/looper.js:689 | bytes 36-43 become the `data` chunk head |
| Wav.WriteHeader | js/looper.js:689 | the first 44 bytes are the header |
| Wav.EncodeWav | js/looper.js:689 | a fresh array holding exactly the WAV file: header, then the PCM samples |

## Left out

- Floating point: every time and sample is an exact real. The 1 ms tolerance, the floors of products and `toFixed` are exact.
- Web Audio, MediaRecorder, `getUserMedia`, `decodeAudioData`, Blob and FileReader are not modelled. A capture reaches the model already decoded, or as `None` when decoding failed.
- The DOM and UI are not modelled: buttons, labels, LEDs, progress bars, toasts, the FX panel markup, drag and resize.
- The timer drivers are not modelled. `setTimeout` re-arming is a flag; `requestAnimationFrame` polling, `waitUntil`, `tickProgress`, `tickMeter` and `sweepRecordLEDs` are absent.
- Click synthesis (`scheduleMetroTickAt`) is left out. A click is an event record.
- The async interleaving of the record path is concurrency and is not modelled: the busy flag, the arming UI, `stopRecording`, and completions arriving later. Recording completion is one synchronous step from a decoded capture.
- A stale overdub schedule left behind after a failed decode is kept. It has the same effect as in the code.
- Session save/load, mix and stem export, downloads and `createImpulseResponse` are not modelled. They are file I/O, an offline render, and `Math.random`.
- `setTargetAtTime` smoothing is not modelled. A parameter takes its target value at once.
- The phaser's LFO oscillator and the connection from the chain output to the track gain node are fixed plumbing, and are not part of the wiring table.
- Fx.Set: only the keys the panel can produce exist. A write to any other key of `track.fx` has no model.
- Looper.Looper.SetBpmSlider: requires a positive value. It relies on the slider's own range, which is not modelled.
- Metronome.Metronome.Tick: uses the corrected measure wrap (`MeasureSnap` of the advanced time), not the snap from `now` at js/looper.js:272-274. The code as written is `Metronome.Metronome.TickAsWritten`, which takes a fuel bound because its loop need not end.
- Metronome.Metronome.Advance: wraps with the corrected `Step`. The pass as written is `Metronome.Metronome.AdvanceAsWritten`.
- Metronome.Metronome.Start: its first scheduler pass is the corrected `Tick`, not the pass as written.
- Looper.Looper.TimerFires: runs the corrected `Tick`. As written a pass can loop forever (see Findings).
- Looper.Looper.Restarted: states the schedule of the corrected `Tick`, not the pass as written.
- Looper.Looper.RestartMetronome: its restarted metronome is `Restarted`, so its clicks are the corrected schedule.
- Looper.Looper.Retempo: its restarted metronome follows the corrected schedule, as in `RestartMetronome`.
- Looper.Looper.SetBpmTyped: its restarted metronome follows the corrected schedule, through `Retempo`.
- Looper.Looper.SetBpmSlider: its restarted metronome follows the corrected schedule, through `Retempo`.
- Looper.Looper.SetTimeTop: its restarted metronome follows the corrected schedule, through `Retempo`.
- Looper.Looper.SetTimeBottom: its restarted metronome follows the corrected schedule, through `Retempo`.
- Looper.Looper.SetPulses: its restarted metronome follows the corrected schedule, through `RestartMetronome`.
- Looper.Looper.ToggleMetronome: switching on starts the corrected schedule.
- Looper.Looper.StartPlayback: the metronome it restarts follows the corrected schedule.
- Looper.Looper.PressPlay: the metronome it restarts follows the corrected schedule.
- Looper.Resumed: starts at the corrected `LoopPhase`. As written the offset `(now - startAt) % loopLen` is negative before `startAt` (see Findings). Web Audio's `start` throws a RangeError on a negative offset. The old source is already stopped, so the track keeps its new buffer with no source, and the calling handler stops there.
- Looper.VoiceFor: uses `Resumed`, so before `startAt` it states a voice that the code as written never starts.
- Looper.Looper.ApplyBufferToTrack: states the `Resumed` voice. As written, before `startAt` the call throws after the buffer is set: the track has no source, and the exception ends the handler that called it. The loop-length reset it skips cannot apply, since the track now holds a buffer.
- Looper.Looper.Undo: states the corrected voice. As written, before `startAt` the handler stops in `applyBufferToTrack` with the pointer moved and no source, and `updateUndoRedoBtns` (js/looper.js:474) is skipped.
- Looper.Looper.Redo: as `Undo`; as written, before `startAt` the handler stops with no source, and `updateUndoRedoBtns` (js/looper.js:484) is skipped.
- Looper.Looper.CompleteRecording: states the corrected voice. As written, a take completed while playing before `startAt` stops in `applyBufferToTrack`: the take is on the track with no source, but the pointer is not forced to the history's end, the after-push is skipped (js/looper.js:525-527) and the take is not in history.
- Looper.Looper.ApplyNew: states the corrected voice. As written, before `startAt` the apply throws and the caller stops.
- Looper.Looper.ApplyAll: states the corrected voices. As written, before `startAt` the loop over the tracks stops at the first track with a buffer, and the tracks after it keep their old buffers and voices.
- Looper.Looper.ApplyConformed: as `ApplyAll`; as written, before `startAt` the tracks after the first one applied are not reached.
- Looper.Looper.ApplyAndPush: states the corrected voices. As written, before `startAt` the first apply throws: the later tracks, the new loop length and the second round of pushes are skipped.
- Looper.Looper.Reconform: as `ApplyAndPush`; as written, before `startAt` the handler ends after the first applied track, with the first pushes done, the loop length unchanged and no second pushes.
- Looper.Looper.ApplyLoop: as `Reconform`; as written, applying a new length while playing before `startAt` stops at the first track with a buffer. That track has its conformed buffer and no source; the later tracks are not applied; `loopLenSec` keeps its old value; the second pushes (js/looper.js:614) are skipped.
- Mix.Mixer.ToggleMute: refreshes through the corrected `RefreshGains`. As written (`RefreshGainsAsWritten`) a slider at 0 comes back at gain 1.
- Mix.Mixer.ToggleSolo: refreshes through the corrected `RefreshGains`, as `ToggleMute` does.
- Fx.FxTrack.SetStage: rewires through the corrected `Connect`. As written (`ConnectAsWritten`) connections from a stage switched off stay.
- Fx.FxTrack.UpdateAll: rewires through the corrected `Connect`, as `SetStage` does.
- Recorder.FallbackRecorder.Start: the script processor is a `connected` flag. The node graph it joins is not modelled.

## Findings

| source | as written | input that shows it | evidently intended | confidence | as-written member | corrected member |
|---|---|---|---|---|---|---|
| js/looper.js:272-274 | at a measure wrap the next downbeat is snapped from `now`, the clock reading at the start of the tick, not from the advanced time | time signature 1/4 with quarter pulses while playing, with the pending click inside the 0.12 s horizon: every pass wraps and snaps back inside the horizon, so the `while` never exits | snap the advanced time to the next measure boundary at or after it | not executed | Metronome.AsWrittenSchedulerNeverExits | Metronome.MeasureSnap |
| js/looper.js:580 | `refreshGains` reads the slider as `Number(vol) \|\| 1`, so a slider at 0 gives gain 1 | slider at 0 on an unmuted track, then any mute or solo toggle: `setVolume` gave 0, the refresh gives 1 | the slider's own value times the gate, as `setVolume` computes | not executed | Mix.SilencedSliderComesBackAsWritten | Mix.Mixer.RefreshGains |
| js/looper.js:747 | `connectFxChain` disconnects only the input node, so connections from a stage switched off persist | compressor on, delay on, then delay off: the compressor still feeds the delay and its wet gain into the output | rewire from a clean graph, so the connections are exactly those of the current flags | not executed | Fx.StaleDelayAsWritten | Fx.FxTrack.Connect |
| js/looper.js:453 | the playback offset is `(now - startAt) % loopLen`, which is negative while `startAt` is still ahead | press play (`startAt` is the next loop start, after `now`), then undo or record before that start: the offset is `now - startAt < 0` | the loop phase in [0, loopLen) | not executed | Tempo.ElapsedNegativeBeforeFirstStart | Tempo.LoopPhase |
