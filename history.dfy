/** Per-track undo/redo history: a bounded linear list of buffer identities with a pointer
    to the current state. */
module History {
  import opened JsNum
  import opened Audio

  /** `MAX_HISTORY`. */
  const MaxHistory: nat := 10

  /** An audio buffer object, compared by reference: two buffers are the same exactly when their
      identities are equal. */
  type BufId = nat

  /** A history entry: a buffer, or `null` for an empty track. */
  type Entry = Option<BufId>

  /** The part of the history kept by a push: everything up to the pointer. */
  function Kept(h: seq<Entry>, p: int): (k: seq<Entry>)
    requires -1 <= p
    ensures p < |h| - 1 ==> k == h[..p + 1]
    ensures p >= |h| - 1 ==> k == h
  {
    if p < |h| - 1 then h[..p + 1] else h
  }

  /** `s` ends with `a`. */
  predicate IsSuffix(a: seq<Entry>, s: seq<Entry>) {
    |a| <= |s| && a == s[|s| - |a|..]
  }

  /** `pushHistory` on the history sequence: drop the redo branch after the pointer, append the
      current buffer unless it is already the last entry, and drop the oldest entry beyond the cap.
      The new pointer is the last index. */
  function Push(h: seq<Entry>, p: int, b: Entry): (r: seq<Entry>)
    requires -1 <= p
    ensures 1 <= |r| && r[|r| - 1] == b
    ensures |h| <= MaxHistory ==> |r| <= MaxHistory
  {
    var kept := Kept(h, p);
    var added := if |kept| == 0 || kept[|kept| - 1] != b then kept + [b] else kept;
    if |added| > MaxHistory then added[1..] else added
  }

  /** What a push keeps: the result ends the kept part followed by the buffer (or the kept part
      alone when it already ends in the buffer), and below the cap it is all of that. */
  lemma PushKeepsPrefix(h: seq<Entry>, p: int, b: Entry)
    requires -1 <= p
    ensures var r := Push(h, p, b); var kept := Kept(h, p);
      (IsSuffix(r, kept + [b]) || IsSuffix(r, kept))
      && (|kept| < MaxHistory ==> |r| == if |kept| > 0 && kept[|kept| - 1] == b then |kept| else |kept| + 1)
  {
  }

  /** Pushing the same state twice changes nothing the second time. */
  lemma PushIsIdempotent(h: seq<Entry>, p: int, b: Entry)
    requires -1 <= p && |h| <= MaxHistory
    ensures Push(Push(h, p, b), |Push(h, p, b)| - 1, b) == Push(h, p, b)
  {
  }

  /** At the head of a history that already ends in the current buffer, a push changes nothing. */
  lemma PushAtHeadIsNoOp(h: seq<Entry>, b: Entry)
    requires 1 <= |h| <= MaxHistory && h[|h| - 1] == b
    ensures Push(h, |h| - 1, b) == h
  {
  }

  /** A push introduces no entry other than the current buffer. */
  lemma PushFrom(h: seq<Entry>, p: int, b: Entry)
    requires -1 <= p
    ensures forall e :: e in Push(h, p, b) ==> e in h || e == b
  {
    var kept := Kept(h, p);
    assert forall e :: e in kept ==> e in h;
  }

  /** A push after an undo discards the redo branch: every entry after the pointer is gone, and the
      entries up to the pointer stay in order. */
  lemma PushAfterUndoDropsRedo(h: seq<Entry>, p: int, b: Entry)
    requires 0 <= p < |h| - 1 && |h| <= MaxHistory && h[p] == b
    ensures Push(h, p, b) == h[..p + 1]
  {
  }

  /** A new buffer on a full history pushes out the oldest entry. */
  lemma PushOnFullDropsOldest(h: seq<Entry>, b: Entry)
    requires |h| == MaxHistory && h[|h| - 1] != b
    ensures Push(h, |h| - 1, b) == h[1..] + [b]
  {
  }

  /** `undo`: the pointer moves back one when there is an earlier state. */
  function UndoPointer(p: int): int {
    if p > 0 then p - 1 else p
  }

  /** `redo`: the pointer moves forward one when there is a later state. */
  function RedoPointer(h: seq<Entry>, p: int): int {
    if p < |h| - 1 then p + 1 else p
  }

  /** `updateUndoRedoBtns`: the undo button is disabled at the first entry. */
  predicate UndoDisabled(p: int) {
    p <= 0
  }

  /** `updateUndoRedoBtns`: the redo button is disabled at the last entry. */
  predicate RedoDisabled(h: seq<Entry>, p: int) {
    p >= |h| - 1
  }

  /** The undo button is disabled exactly when undo would do nothing, and otherwise undo moves
      the pointer back by one. */
  lemma UndoDisabledIffNoOp(p: int)
    ensures UndoDisabled(p) <==> UndoPointer(p) == p
    ensures !UndoDisabled(p) ==> UndoPointer(p) == p - 1
  {
  }

  /** The redo button is disabled exactly when redo would do nothing, and otherwise redo moves
      the pointer forward by one. */
  lemma RedoDisabledIffNoOp(h: seq<Entry>, p: int)
    ensures RedoDisabled(h, p) <==> RedoPointer(h, p) == p
    ensures !RedoDisabled(h, p) ==> RedoPointer(h, p) == p + 1
  {
  }

  /** Undo then redo returns to the same state; so does redo then undo. */
  lemma UndoRedoRoundTrip(h: seq<Entry>, p: int)
    requires 0 <= p < |h|
    ensures !UndoDisabled(p) ==> RedoPointer(h, UndoPointer(p)) == p
    ensures !RedoDisabled(h, p) ==> UndoPointer(RedoPointer(h, p)) == p
  {
  }

  /** The history after a completed recording: the state before it is pushed, then the pointer is
      forced past the end and the new buffer is pushed. */
  function Recorded(h: seq<Entry>, p: int, before: Entry, take: BufId): (r: seq<Entry>)
    requires -1 <= p
    ensures 1 <= |r| && r[|r| - 1] == Some(take)
  {
    var h1 := Push(h, p, before);
    Push(h1, |h1|, Some(take))
  }

  /** After a recording with a buffer that is new (not in the history), the entry just before it
      is the buffer the track had: one undo brings it back. */
  lemma {:induction false} UndoAfterRecordingRestores(h: seq<Entry>, p: int, before: Entry, take: BufId)
    requires -1 <= p && |h| <= MaxHistory
    requires before != Some(take)
    ensures var r := Recorded(h, p, before, take);
      |r| <= MaxHistory && r[|r| - 2] == before
  {
    var h1 := Push(h, p, before);
    assert h1[|h1| - 1] == before;
    var r := Push(h1, |h1|, Some(take));
    assert Kept(h1, |h1|) == h1;
    if |h1| + 1 > MaxHistory {
      assert r == (h1 + [Some(take)])[1..];
    } else {
      assert r == h1 + [Some(take)];
    }
  }

  /** A recording at the head of a history with room left appends the new take. */
  lemma {:induction false} RecordAtHead(h: seq<Entry>, b: Entry, take: BufId)
    requires 1 <= |h| < MaxHistory && h[|h| - 1] == b && b != Some(take)
    ensures Recorded(h, |h| - 1, b, take) == h + [Some(take)]
  {
    PushAtHeadIsNoOp(h, b);
    assert Kept(h, |h|) == h;
  }

  /** Record three takes, undo twice, then record again: the two undone takes are gone for good and
      the history is [empty, first take, new take] with the pointer on the new take. */
  lemma {:induction false} RecordAfterUndoForgetsRedoBranch(a: BufId, b: BufId, c: BufId, d: BufId)
    requires a != b && b != c && a != c && d != a
    ensures var h3 := Recorded(Recorded(Recorded([None], 0, None, a), 1, Some(a), b), 2, Some(b), c);
      h3 == [None, Some(a), Some(b), Some(c)]
      && UndoPointer(UndoPointer(3)) == 1 && h3[1] == Some(a)
      && Recorded(h3, 1, Some(a), d) == [None, Some(a), Some(d)]
  {
    var h0: seq<Entry> := [None];
    RecordAtHead(h0, None, a);
    var h1 := h0 + [Some(a)];
    assert Recorded(h0, 0, None, a) == h1;
    RecordAtHead(h1, Some(a), b);
    var h2 := h1 + [Some(b)];
    assert Recorded(h1, 1, Some(a), b) == h2;
    RecordAtHead(h2, Some(b), c);
    var h3 := h2 + [Some(c)];
    assert Recorded(h2, 2, Some(b), c) == h3;
    assert h3 == [None, Some(a), Some(b), Some(c)];
    PushAfterUndoDropsRedo(h3, 1, Some(a));
    assert h3[..2] == h1;
    assert Push(h3, 1, Some(a)) == h1;
    RecordAtHead(h1, Some(a), d);
  }

  /** Eleven distinct states in a row keep only the last ten. */
  lemma {:induction false} CapKeepsLastTen(h: seq<Entry>, b: Entry)
    requires |h| == MaxHistory && (forall k :: 0 <= k < |h| ==> h[k] != b)
    ensures Push(h, |h| - 1, b) == h[1..] + [b]
    ensures b !in Push(h, |h| - 1, b)[..MaxHistory - 1]
  {
    PushOnFullDropsOldest(h, b);
    var r := h[1..] + [b];
    assert r[..MaxHistory - 1] == h[1..];
  }

  /** The history after `clearTrack`: the state before is pushed, the buffer becomes empty, and
      the empty state is pushed. */
  function Cleared(h: seq<Entry>, p: int, b: Entry): (r: seq<Entry>)
    requires -1 <= p
    ensures 1 <= |r| && r[|r| - 1] == None
  {
    var h1 := Push(h, p, b);
    Push(h1, |h1| - 1, None)
  }

  /** Clearing a track that holds a buffer can be undone: the entry before the new empty state is
      that buffer. */
  lemma {:induction false} UndoAfterClearRestores(h: seq<Entry>, p: int, b: Entry)
    requires 0 <= p < |h| <= MaxHistory && h[p] == b && b != None
    ensures var r := Cleared(h, p, b);
      2 <= |r| <= MaxHistory && r[|r| - 2] == b
  {
    var h1 := Push(h, p, b);
    assert Kept(h, p) == h[..p + 1];
    assert h1 == h[..p + 1];
    var r := Push(h1, |h1| - 1, None);
    assert Kept(h1, |h1| - 1) == h1;
    if |h1| + 1 > MaxHistory {
      assert r == (h1 + [None])[1..];
    } else {
      assert r == h1 + [None];
    }
  }

  /** Clearing a track that is already empty, at the head of its history, changes nothing. */
  lemma ClearingEmptyHeadIsNoOp(h: seq<Entry>)
    requires 1 <= |h| <= MaxHistory && h[|h| - 1] == None
    ensures Cleared(h, |h| - 1, None) == h
  {
    PushAtHeadIsNoOp(h, None);
  }

  /** The playing source of a track: the track's buffer, the samples the source plays (that buffer
      normalised to the loop, or none when that fails), the clock time it starts, the offset into
      the loop it starts from, and the loop end. */
  datatype Voice = Voice(buffer: BufId, plays: Option<Buffer>, when: real, offset: real, loopEnd: real)

  /** A looper track's audio state: its current buffer, its history and pointer, and its source. */
  class Track {
    var buffer: Entry
    var history: seq<Entry>
    var pointer: int
    var voice: Option<Voice>

    /** The history holds between one and `MaxHistory` states and `historyPointer` indexes the current one. */
    ghost predicate Valid()
      reads this
    {
      1 <= |history| <= MaxHistory && 0 <= pointer < |history| && history[pointer] == buffer
    }

    /** Every buffer this track refers to was allocated before `next`. */
    ghost predicate IdsBelow(next: nat)
      reads this
    {
      (buffer.Some? ==> buffer.value < next)
      && forall e :: e in history && e.Some? ==> e.value < next
    }

    /** A fresh track: no buffer, an empty history, pointer -1. */
    constructor()
      ensures buffer == None && history == [] && pointer == -1 && voice == None
    {
      buffer := None;
      history := [];
      pointer := -1;
      voice := None;
    }

    /** `pushHistory`. */
    method PushHistory()
      requires pointer >= -1
      modifies this
      ensures history == Push(old(history), old(pointer), buffer)
      ensures pointer == |history| - 1
      ensures buffer == old(buffer) && voice == old(voice)
      ensures forall e :: e in history ==> e in old(history) || e == buffer
    {
      PushFrom(history, pointer, buffer);
      if pointer < |history| - 1 {
        history := history[..pointer + 1];
      }
      if |history| == 0 || history[|history| - 1] != buffer {
        history := history + [buffer];
      }
      if |history| > MaxHistory {
        history := history[1..];
      }
      pointer := |history| - 1;
    }
  }
}
