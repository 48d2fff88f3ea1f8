/** `encodeWAV`: a mono buffer as a 16-bit PCM RIFF/WAVE file, written through a `DataView` over a
    zero-filled `ArrayBuffer` of `44 + 2 * len` bytes. */
module Wav {
  import opened JsNum

  newtype byte = x: int | 0 <= x < 0x100

  const Two16: int := 0x1_0000
  const Two32: int := 0x1_0000_0000

  /** `setUint8` of a character code: ToUint8 keeps the code modulo 256. */
  function Tag(s: string): (r: seq<byte>)
    ensures |r| == |s|
  {
    seq(|s|, i requires 0 <= i < |s| => (s[i] as int % 0x100) as byte)
  }

  /** The two little-endian bytes `setUint16`/`setInt16` store for a 16-bit pattern `u`. */
  function Le16(u: int): (r: seq<byte>)
    requires 0 <= u < Two16
  {
    [(u % 0x100) as byte, (u / 0x100) as byte]
  }

  /** The four little-endian bytes `setUint32` stores for a 32-bit pattern `u`. */
  function Le32(u: int): (r: seq<byte>)
    requires 0 <= u < Two32
  {
    var a := u / 0x100;
    var b := a / 0x100;
    [(u % 0x100) as byte, (a % 0x100) as byte, (b % 0x100) as byte, (b / 0x100) as byte]
  }

  /** ToUint32 of a whole number. */
  function U32(x: int): (u: int)
    ensures 0 <= u < Two32
    ensures 0 <= x < Two32 ==> u == x
  {
    x % Two32
  }

  /** The little-endian 16-bit unsigned field at `o`. */
  function U16At(w: seq<byte>, o: nat): int
    requires o + 2 <= |w|
  {
    w[o] as int + 0x100 * w[o + 1] as int
  }

  /** The little-endian 32-bit unsigned field at `o`. */
  function U32At(w: seq<byte>, o: nat): int
    requires o + 4 <= |w|
  {
    w[o] as int + 0x100 * (w[o + 1] as int + 0x100 * (w[o + 2] as int + 0x100 * w[o + 3] as int))
  }

  /** The little-endian 16-bit two's complement field at `o`. */
  function I16At(w: seq<byte>, o: nat): int
    requires o + 2 <= |w|
  {
    var u := U16At(w, o);
    if u >= 0x8000 then u - Two16 else u
  }

  /** Reading a stored 16-bit pattern gives it back. */
  lemma Le16Value(u: int)
    requires 0 <= u < Two16
    ensures U16At(Le16(u), 0) == u
  {
  }

  /** Reading a stored 32-bit pattern gives it back. */
  lemma Le32Value(u: int)
    requires 0 <= u < Two32
    ensures U32At(Le32(u), 0) == u
  {
    var b := u / 0x100 / 0x100;
    assert b / 0x100 < 0x100;
  }

  /** The sample clamped to [-1, 1] and scaled by 0x8000 below zero, 0x7fff otherwise. */
  function Scaled(x: real): (v: real)
    ensures -32768.0 <= v <= 32767.0
    ensures x < 0.0 ==> v < 0.0
    ensures x >= 0.0 ==> v >= 0.0
  {
    var s := MaxR(-1.0, MinR(1.0, x));
    if s < 0.0 then s * 32768.0 else s * 32767.0
  }

  /** The 16-bit sample `setInt16` stores: the scaled sample truncated toward zero. */
  function SampleValue(x: real): (v: int)
    ensures -0x8000 <= v < 0x8000
  {
    Trunc(Scaled(x))
  }

  /** `setInt16`: ToInt16 truncates and keeps the value modulo 2^16, stored little-endian. */
  function Int16Bytes(x: real): (r: seq<byte>)
  {
    Le16(Trunc(x) % Two16)
  }

  /** The bytes of the samples, two per sample, in order. */
  function Pcm(data: seq<real>): (r: seq<byte>)
    ensures |r| == 2 * |data|
  {
    if |data| == 0 then [] else Pcm(data[..|data| - 1]) + Int16Bytes(Scaled(data[|data| - 1]))
  }

  /** The RIFF chunk head: the tag, the size of the rest of the file, and the WAVE form type. */
  function RiffHead(len: nat): (r: seq<byte>)
  {
    Tag("RIFF") + Le32(U32(36 + len * 2)) + Tag("WAVE")
  }

  /** The `fmt ` chunk: 16 bytes of format 1 (PCM), one channel, the rate, the byte rate, block
      align 2 and 16 bits per sample. */
  function FmtChunk(sr: nat): (r: seq<byte>)
  {
    Tag("fmt ") + Le32(16) + Le16(1) + Le16(1) + Le32(U32(sr)) + Le32(U32(sr * 1 * 2)) + Le16(2) + Le16(16)
  }

  /** The `data` chunk head: the tag and the size of the samples. */
  function DataHead(len: nat): (r: seq<byte>)
  {
    Tag("data") + Le32(U32(len * 2))
  }

  /** The 44-byte header. */
  function Header(len: nat, sr: nat): (r: seq<byte>)
  {
    RiffHead(len) + FmtChunk(sr) + DataHead(len)
  }

  /** The whole file `encodeWAV` returns. */
  function WavFile(data: seq<real>, sr: nat): seq<byte>
  {
    Header(|data|, sr) + Pcm(data)
  }

  /** The file is the header and two bytes per sample. */
  lemma WavLength(data: seq<real>, sr: nat)
    ensures |WavFile(data, sr)| == 44 + 2 * |data|
  {
  }

  /** The RIFF chunk head reads back: its tag, the size `36 + 2 * len` modulo 2^32, and `WAVE`. */
  lemma {:induction false} RiffFields(data: seq<real>, sr: nat)
    ensures var w := WavFile(data, sr);
      |w| >= 44 && w[0..4] == Tag("RIFF") && U32At(w, 4) == (36 + 2 * |data|) % Two32 && w[8..12] == Tag("WAVE")
  {
    var size := U32(36 + |data| * 2);
    Le32Value(size);
    assert RiffHead(|data|)[4..8] == Le32(size);
  }

  /** The `fmt ` chunk reads back: size 16, format 1, one channel, the rate and byte rate modulo
      2^32, block align 2, 16 bits per sample. */
  lemma {:induction false} FmtFields(data: seq<real>, sr: nat)
    ensures var w := WavFile(data, sr);
      |w| >= 44 && w[12..16] == Tag("fmt ")
      && U32At(w, 16) == 16 && U16At(w, 20) == 1 && U16At(w, 22) == 1
      && U32At(w, 24) == sr % Two32 && U32At(w, 28) == (2 * sr) % Two32
      && U16At(w, 32) == 2 && U16At(w, 34) == 16
  {
    var w := WavFile(data, sr);
    var f := FmtChunk(sr);
    assert w[12..36] == f;
    FmtChunkFields(sr);
    U32Shift(w, f, 12, 4);
    U16Shift(w, f, 12, 8);
    U16Shift(w, f, 12, 10);
    U32Shift(w, f, 12, 12);
    U32Shift(w, f, 12, 16);
    U16Shift(w, f, 12, 20);
    U16Shift(w, f, 12, 22);
  }

  /** The fields of the `fmt ` chunk, at offsets within the chunk. */
  lemma FmtChunkFields(sr: nat)
    ensures var f := FmtChunk(sr);
      |f| == 24 && f[0..4] == Tag("fmt ")
      && U32At(f, 4) == 16 && U16At(f, 8) == 1 && U16At(f, 10) == 1
      && U32At(f, 12) == sr % Two32 && U32At(f, 16) == (2 * sr) % Two32
      && U16At(f, 20) == 2 && U16At(f, 22) == 16
  {
    var f := FmtChunk(sr);
    Le32Value(16);
    Le32Value(U32(sr));
    Le32Value(U32(sr * 1 * 2));
    assert f[4..8] == Le32(16);
    assert f[12..16] == Le32(U32(sr));
    assert f[16..20] == Le32(U32(sr * 1 * 2));
  }

  /** A 32-bit field of a slice `f` placed at `d` reads the same in the whole. */
  lemma U32Shift(w: seq<byte>, f: seq<byte>, d: nat, k: nat)
    requires d + |f| <= |w| && w[d..d + |f|] == f && k + 4 <= |f|
    ensures U32At(w, d + k) == U32At(f, k)
  {
    assert w[d + k] == f[k] && w[d + k + 1] == f[k + 1] && w[d + k + 2] == f[k + 2] && w[d + k + 3] == f[k + 3];
  }

  /** A 16-bit field of a slice `f` placed at `d` reads the same in the whole. */
  lemma U16Shift(w: seq<byte>, f: seq<byte>, d: nat, k: nat)
    requires d + |f| <= |w| && w[d..d + |f|] == f && k + 2 <= |f|
    ensures U16At(w, d + k) == U16At(f, k)
  {
    assert w[d + k] == f[k] && w[d + k + 1] == f[k + 1];
  }

  /** The `data` chunk head reads back: its tag and the size `2 * len` modulo 2^32. */
  lemma {:induction false} DataFields(data: seq<real>, sr: nat)
    ensures var w := WavFile(data, sr);
      |w| >= 44 && w[36..40] == Tag("data") && U32At(w, 40) == (2 * |data|) % Two32
  {
    var size := U32(|data| * 2);
    Le32Value(size);
    assert DataHead(|data|)[4..8] == Le32(size);
  }

  /** One more sample appends its two bytes. */
  lemma PcmSnoc(data: seq<real>, i: nat)
    requires i < |data|
    ensures Pcm(data[..i + 1]) == Pcm(data[..i]) + Int16Bytes(Scaled(data[i]))
  {
    assert data[..i + 1][..i] == data[..i];
  }

  /** The two bytes of sample `i` sit at `2 * i` of the PCM data. */
  lemma {:induction false} PcmAt(data: seq<real>, i: nat)
    requires i < |data|
    ensures Pcm(data)[2 * i..2 * i + 2] == Int16Bytes(Scaled(data[i]))
    decreases |data|
  {
    var init := data[..|data| - 1];
    if i < |data| - 1 {
      PcmAt(init, i);
      assert init[i] == data[i];
    }
  }

  /** Sample `i` reads back, as a signed 16-bit field at `44 + 2 * i`, as its clamped, scaled and
      truncated value. */
  lemma SampleField(data: seq<real>, sr: nat, i: nat)
    requires i < |data|
    ensures 44 + 2 * i + 2 <= |WavFile(data, sr)|
    ensures I16At(WavFile(data, sr), 44 + 2 * i) == SampleValue(data[i])
  {
    var w := WavFile(data, sr);
    var o := 44 + 2 * i;
    PcmAt(data, i);
    assert w[o..o + 2] == Pcm(data)[2 * i..2 * i + 2];
    FieldSlice(w, o);
    Int16ReadsBack(Scaled(data[i]));
  }

  /** A 16-bit field reads the same from its two-byte slice. */
  lemma FieldSlice(w: seq<byte>, o: nat)
    requires o + 2 <= |w|
    ensures I16At(w, o) == I16At(w[o..o + 2], 0)
  {
  }

  /** `setInt16` of a value in the 16-bit range reads back as its truncation. */
  lemma Int16ReadsBack(x: real)
    requires -0x8000 <= Trunc(x) < 0x8000
    ensures I16At(Int16Bytes(x), 0) == Trunc(x)
  {
    Le16Value(Trunc(x) % Two16);
  }

  /** Full-scale samples and beyond hit the 16-bit limits; silence stays silent. */
  lemma SampleLimits(x: real)
    ensures x >= 1.0 ==> SampleValue(x) == 0x7fff
    ensures x <= -1.0 ==> SampleValue(x) == -0x8000
    ensures x == 0.0 ==> SampleValue(x) == 0
  {
  }

  /** A louder sample never encodes lower. */
  lemma SampleMonotone(x: real, y: real)
    requires x <= y
    ensures SampleValue(x) <= SampleValue(y)
  {
    var a := Scaled(x);
    var b := Scaled(y);
    assert a <= b by {
      var s := MaxR(-1.0, MinR(1.0, x));
      var t := MaxR(-1.0, MinR(1.0, y));
      assert s <= t;
      if s < 0.0 && t >= 0.0 {
      } else if s < 0.0 {
        MulLe(s, t, 32768.0);
      } else {
        MulLe(s, t, 32767.0);
      }
    }
    TruncMonotone(a, b);
  }

  lemma TruncMonotone(a: real, b: real)
    requires a <= b
    ensures Trunc(a) <= Trunc(b)
  {
  }

  /** `DataView` writes of `bytes` from offset `o`, after the bytes `pre`. */
  method Put(view: array<byte>, o: nat, bytes: seq<byte>, ghost pre: seq<byte>)
    requires o + |bytes| <= view.Length && |pre| == o && view[..o] == pre
    modifies view
    ensures view[..o + |bytes|] == pre + bytes
  {
    for i := 0 to |bytes|
      invariant view[..o + i] == pre + bytes[..i]
    {
      view[o + i] := bytes[i];
      assert view[..o + i + 1] == view[..o + i] + [bytes[i]];
    }
  }

  /** The `W(o, s)` helper, after the bytes `pre`: `setUint8(o + i, s.charCodeAt(i))` for every
      character. */
  method WriteTag(view: array<byte>, o: nat, s: string, ghost pre: seq<byte>)
    requires o + |s| <= view.Length && |pre| == o && view[..o] == pre
    modifies view
    ensures view[..o + |s|] == pre + Tag(s)
  {
    for i := 0 to |s|
      invariant view[..o + i] == pre + Tag(s)[..i]
    {
      view[o + i] := (s[i] as int % 0x100) as byte;
      assert view[..o + i + 1] == view[..o + i] + [Tag(s)[i]];
    }
  }

  /** The RIFF chunk head writes. */
  method WriteRiff(view: array<byte>, len: nat)
    requires view.Length >= 12
    modifies view
    ensures view[..12] == RiffHead(len)
  {
    WriteTag(view, 0, "RIFF", []);
    ghost var h := Tag("RIFF");
    Put(view, 4, Le32(U32(36 + len * 2)), h);
    h := h + Le32(U32(36 + len * 2));
    WriteTag(view, 8, "WAVE", h);
  }

  /** The `fmt ` chunk writes, after the bytes `pre`. */
  method WriteFmt(view: array<byte>, sr: nat, ghost pre: seq<byte>)
    requires view.Length >= 36 && |pre| == 12 && view[..12] == pre
    modifies view
    ensures view[..36] == pre + FmtChunk(sr)
  {
    WriteTag(view, 12, "fmt ", pre);
    ghost var h := pre + Tag("fmt ");
    Put(view, 16, Le32(16), h);
    h := h + Le32(16);
    Put(view, 20, Le16(1), h);
    h := h + Le16(1);
    Put(view, 22, Le16(1), h);
    h := h + Le16(1);
    FmtRates(view, sr, h);
    h := h + Le32(U32(sr)) + Le32(U32(sr * 1 * 2));
    Put(view, 32, Le16(2), h);
    h := h + Le16(2);
    Put(view, 34, Le16(16), h);
    h := h + Le16(16);
    assert h == pre + FmtChunk(sr);
  }

  /** The rate and byte-rate writes, after the bytes `pre`. */
  method FmtRates(view: array<byte>, sr: nat, ghost pre: seq<byte>)
    requires view.Length >= 32 && |pre| == 24 && view[..24] == pre
    modifies view
    ensures view[..32] == pre + Le32(U32(sr)) + Le32(U32(sr * 1 * 2))
  {
    Put(view, 24, Le32(U32(sr)), pre);
    Put(view, 28, Le32(U32(sr * 1 * 2)), pre + Le32(U32(sr)));
  }

  /** The `data` chunk head writes, after the bytes `pre`. */
  method WriteDataHead(view: array<byte>, len: nat, ghost pre: seq<byte>)
    requires view.Length >= 44 && |pre| == 36 && view[..36] == pre
    modifies view
    ensures view[..44] == pre + DataHead(len)
  {
    WriteTag(view, 36, "data", pre);
    Put(view, 40, Le32(U32(len * 2)), pre + Tag("data"));
  }

  /** The header writes, in offset order. */
  method WriteHeader(view: array<byte>, len: nat, sr: nat)
    requires view.Length >= 44
    modifies view
    ensures view[..44] == Header(len, sr)
  {
    WriteRiff(view, len);
    WriteFmt(view, sr, RiffHead(len));
    WriteDataHead(view, len, RiffHead(len) + FmtChunk(sr));
  }

  /** `encodeWAV`: the header fields, then every sample with `setInt16`. */
  method EncodeWav(data: seq<real>, sr: nat) returns (view: array<byte>)
    ensures fresh(view)
    ensures view[..] == WavFile(data, sr)
  {
    var len := |data|;
    view := new byte[44 + len * 2](_ => 0);
    WriteHeader(view, len, sr);
    ghost var h := Header(len, sr);
    var off := 44;
    for i := 0 to len
      invariant off == 44 + 2 * i && |h| == 44
      invariant view[..off] == h + Pcm(data[..i])
    {
      WriteSample(view, off, data, i, h);
      off := off + 2;
    }
    assert data[..len] == data;
    assert view[..] == view[..off];
  }

  /** One `setInt16(44 + 2 * i, ...)` of the clamped and scaled sample `i`, after the header `h`
      and the samples before it. */
  method WriteSample(view: array<byte>, off: nat, data: seq<real>, i: nat, ghost h: seq<byte>)
    requires i < |data| && |h| == 44 && off == 44 + 2 * i && off + 2 <= view.Length
    requires view[..off] == h + Pcm(data[..i])
    modifies view
    ensures view[..off + 2] == h + Pcm(data[..i + 1])
  {
    var s := MaxR(-1.0, MinR(1.0, data[i]));
    var x := if s < 0.0 then s * 32768.0 else s * 32767.0;
    assert x == Scaled(data[i]);
    PcmSnoc(data, i);
    Put(view, off, Int16Bytes(x), h + Pcm(data[..i]));
  }
}
