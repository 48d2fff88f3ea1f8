/** The fallback recorder used when MediaRecorder is missing: it collects the
    chunks a script processor delivers while recording and joins them into one
    mono buffer on request (js/looper.js:698). */

module Recorder {
  import opened JsNum
  import opened Audio

  /** The samples of all chunks, in arrival order. */
  function Flatten(bs: seq<seq<real>>): (r: seq<real>)
    decreases |bs|
  {
    if |bs| == 0 then [] else Flatten(bs[..|bs| - 1]) + bs[|bs| - 1]
  }

  /** The running sum `_bufs.reduce((s, a) => s + a.length, 0)`. */
  function TotalLength(bs: seq<seq<real>>): (n: nat)
    decreases |bs|
  {
    if |bs| == 0 then 0 else TotalLength(bs[..|bs| - 1]) + |bs[|bs| - 1]|
  }

  /** The length sum is the number of samples the joined buffer holds. */
  lemma {:induction false} TotalIsFlatLength(bs: seq<seq<real>>)
    ensures TotalLength(bs) == |Flatten(bs)|
    decreases |bs|
  {
    if |bs| > 0 {
      TotalIsFlatLength(bs[..|bs| - 1]);
    }
  }

  /** Joining two runs of chunks is joining each and concatenating. */
  lemma {:induction false} FlattenAppend(a: seq<seq<real>>, b: seq<seq<real>>)
    ensures Flatten(a + b) == Flatten(a) + Flatten(b)
    decreases |b|
  {
    if |b| == 0 {
      assert a + b == a;
    } else {
      var b' := b[..|b| - 1];
      assert (a + b)[..|a + b| - 1] == a + b';
      FlattenAppend(a, b');
    }
  }

  /** The joined buffer is empty exactly when every chunk is. */
  lemma {:induction false} EmptyIffSilent(bs: seq<seq<real>>)
    ensures |Flatten(bs)| == 0 <==> forall i :: 0 <= i < |bs| ==> |bs[i]| == 0
    decreases |bs|
  {
    if |bs| > 0 {
      var p := bs[..|bs| - 1];
      EmptyIffSilent(p);
      if |Flatten(bs)| == 0 {
        forall i | 0 <= i < |bs| ensures |bs[i]| == 0 {
          if i < |p| {
            assert bs[i] == p[i];
          }
        }
      } else if |Flatten(p)| == 0 {
        assert |bs[|bs| - 1]| != 0;
      } else {
        var i :| 0 <= i < |p| && |p[i]| != 0;
        assert bs[i] == p[i];
      }
    }
  }

  /** Sample `j` of chunk `c` sits at the chunk's offset plus `j`. */
  lemma {:induction false} FlattenAt(bs: seq<seq<real>>, c: nat, j: nat)
    requires c < |bs| && j < |bs[c]|
    ensures TotalLength(bs[..c]) + j < |Flatten(bs)|
    ensures Flatten(bs)[TotalLength(bs[..c]) + j] == bs[c][j]
  {
    var a, b := bs[..c + 1], bs[c + 1..];
    assert bs == a + b;
    FlattenAppend(a, b);
    assert a[..c] == bs[..c];
    TotalIsFlatLength(bs[..c]);
  }

  /** Chunk `c` follows the chunks before it and fits inside the total. */
  lemma NextChunk(bs: seq<seq<real>>, c: nat)
    requires c < |bs|
    ensures TotalLength(bs[..c + 1]) == TotalLength(bs[..c]) + |bs[c]| <= TotalLength(bs)
    ensures Flatten(bs[..c + 1]) == Flatten(bs[..c]) + bs[c]
  {
    var a, b := bs[..c + 1], bs[c + 1..];
    assert a[..c] == bs[..c];
    assert bs == a + b;
    FlattenAppend(a, b);
    TotalIsFlatLength(a);
    TotalIsFlatLength(bs);
  }

  /** `createFallbackRecorder`'s object: the flag, the captured chunks and
      the context's rate; `connected` stands for the script processor. */
  class FallbackRecorder {
    var isRecording: bool
    var bufs: seq<seq<real>>
    var connected: bool
    const rate: nat

    constructor (sr: nat)
      ensures !isRecording && bufs == [] && !connected && rate == sr
    {
      isRecording := false;
      bufs := [];
      connected := false;
      rate := sr;
    }

    /** `start`: a second start while recording is ignored; otherwise the
        chunks are dropped and capture begins. */
    method Start()
      modifies this
      ensures old(isRecording) ==> isRecording && bufs == old(bufs) && connected == old(connected)
      ensures !old(isRecording) ==> isRecording && bufs == [] && connected
    {
      if isRecording {
        return;
      }
      bufs := [];
      connected := true;
      isRecording := true;
    }

    /** `onaudioprocess`: a copy of the chunk is kept only while recording. */
    method Process(chunk: seq<real>)
      modifies this
      ensures bufs == if old(isRecording) then old(bufs) + [chunk] else old(bufs)
      ensures isRecording == old(isRecording) && connected == old(connected)
    {
      if !isRecording {
        return;
      }
      bufs := bufs + [chunk];
    }

    /** `stop`: a no-op unless recording; the chunks are kept. */
    method Stop()
      modifies this
      ensures !isRecording && bufs == old(bufs)
      ensures connected == (old(connected) && !old(isRecording))
    {
      if !isRecording {
        return;
      }
      isRecording := false;
      connected := false;
    }

    /** `getAudioBuffer`: no buffer when nothing was captured, else all
        chunks joined at the recorder's rate. */
    method GetAudioBuffer() returns (r: Option<Buffer>)
      ensures r.None? <==> forall i :: 0 <= i < |bufs| ==> |bufs[i]| == 0
      ensures r.Some? ==> r.value == Buffer(Flatten(bufs), rate) && |r.value.data| == TotalLength(bufs)
    {
      var total := 0;
      var c := 0;
      while c < |bufs|
        invariant 0 <= c <= |bufs|
        invariant total == TotalLength(bufs[..c])
      {
        assert bufs[..c + 1][..c] == bufs[..c];
        total := total + |bufs[c]|;
        c := c + 1;
      }
      assert bufs[..|bufs|] == bufs;
      TotalIsFlatLength(bufs);
      EmptyIffSilent(bufs);
      if total == 0 {
        return None;
      }
      var o := new real[total](_ => 0.0);
      var off := 0;
      c := 0;
      while c < |bufs|
        invariant 0 <= c <= |bufs|
        invariant off == TotalLength(bufs[..c]) == |Flatten(bufs[..c])|
        invariant off <= total
        invariant o[..off] == Flatten(bufs[..c])
      {
        NextChunk(bufs, c);
        off := CopyChunk(o, bufs[c], off, Flatten(bufs[..c]));
        c := c + 1;
      }
      assert o[..] == o[..off];
      r := Some(Buffer(o[..], rate));
    }

    /** `o.set(a, off)`: the chunk lands right after the samples `pre`. */
    static method CopyChunk(o: array<real>, a: seq<real>, off: nat, ghost pre: seq<real>) returns (next: nat)
      requires |pre| == off && off + |a| <= o.Length && o[..off] == pre
      modifies o
      ensures next == off + |a| && o[..next] == pre + a
    {
      var j := 0;
      while j < |a|
        invariant 0 <= j <= |a|
        invariant o[..off + j] == pre + a[..j]
      {
        o[off + j] := a[j];
        assert a[..j + 1] == a[..j] + [a[j]];
        j := j + 1;
      }
      assert a[..|a|] == a;
      next := off + |a|;
    }
  }
}
