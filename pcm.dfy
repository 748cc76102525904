/**
  Decoding of the agent's speech payload: the binary string produced from the
  base64 text is read as little-endian signed 16-bit mono PCM
  (queueAudioBufferFromBase64 in client/src/avatar.ts). Samples are kept as the
  integers DataView.getInt16 returns; the division by 32768 that turns them
  into floating-point channel data is not modelled.
*/
module Pcm {
  import opened Wrappers
  import opened Bytes

  predicate IsInt16(v: int) {
    -32768 <= v <= 32767
  }

  /** The unsigned 16-bit word whose two's-complement reading is v. */
  function Word(v: int): (w: int)
    requires IsInt16(v)
    ensures 0 <= w < 65536
  {
    if v < 0 then v + 65536 else v
  }

  /** DataView.getInt16(offset, true) over the bytes lo (at offset) and hi (at offset + 1). */
  function Int16LE(lo: Byte, hi: Byte): (v: int)
    ensures IsInt16(v)
    ensures Word(v) == lo as int + 256 * (hi as int)
  {
    var u := lo as int + 256 * (hi as int);
    if u >= 32768 then u - 65536 else u
  }

  /** Storing a character code into a Uint8Array keeps it modulo 256. */
  function ToUint8(c: char): (b: Byte)
    ensures c as int < 256 ==> b == c as int
  {
    (c as int) % 256
  }

  /** The Uint8Array view filled from the binary string, one element per character. */
  function Latin1Bytes(s: string): (b: seq<Byte>)
    ensures |b| == |s|
    ensures forall i :: 0 <= i < |s| && s[i] as int < 256 ==> b[i] == s[i] as int
  {
    seq(|s|, i requires 0 <= i < |s| => ToUint8(s[i]))
  }

  /** Sample i is read from bytes 2i and 2i+1; a trailing odd byte belongs to no sample. */
  function Samples(b: seq<Byte>): (r: seq<int>)
    ensures |r| == |b| / 2
    ensures forall i :: 0 <= i < |r| ==> IsInt16(r[i])
  {
    seq(|b| / 2, i requires 0 <= i < |b| / 2 => Int16LE(b[2 * i], b[2 * i + 1]))
  }

  /**
    The outcome of decoding a byte sequence: None when the source's try block
    throws, so that nothing is queued. A payload of fewer than two bytes asks
    createBuffer for zero frames (refused by Web Audio); an odd payload makes
    the sample loop run once more than there are whole samples, and that
    getInt16 reads past the end.
  */
  function Decode(b: seq<Byte>): (r: Option<seq<int>>)
    ensures r.Some? <==> |b| >= 2 && |b| % 2 == 0
    ensures r.Some? ==> |r.value| == |b| / 2 && r.value == Samples(b)
  {
    if |b| / 2 == 0 || |b| % 2 == 1 then None else Some(Samples(b))
  }

  /** Sample i of a successful decode is the signed little-endian value of bytes 2i, 2i+1. */
  lemma DecodedSampleAt(b: seq<Byte>, i: nat)
    requires Decode(b).Some? && i < |b| / 2
    ensures i < |Decode(b).value|
    ensures Word(Decode(b).value[i]) == b[2 * i] as int + 256 * (b[2 * i + 1] as int)
    ensures IsInt16(Decode(b).value[i])
  {
  }

  /** The two little-endian bytes of a 16-bit sample (the inverse of Int16LE). */
  function EncodeSample(v: int): (r: seq<Byte>)
    requires IsInt16(v)
    ensures |r| == 2 && Int16LE(r[0], r[1]) == v
  {
    [Word(v) % 256, Word(v) / 256]
  }

  /** Little-endian 16-bit PCM encoding of a sample sequence, as the agent produces it. */
  function Encode(s: seq<int>): (r: seq<Byte>)
    requires forall i :: 0 <= i < |s| ==> IsInt16(s[i])
  {
    if s == [] then [] else EncodeSample(s[0]) + Encode(s[1..])
  }

  lemma {:induction false} EncodeAt(s: seq<int>, i: nat)
    requires forall k :: 0 <= k < |s| ==> IsInt16(s[k])
    requires i < |s|
    ensures |Encode(s)| == 2 * |s|
    ensures Encode(s)[2 * i .. 2 * i + 2] == EncodeSample(s[i])
  {
    if i == 0 {
      EncodeLength(s[1..]);
    } else {
      EncodeAt(s[1..], i - 1);
    }
  }

  lemma {:induction false} EncodeLength(s: seq<int>)
    requires forall k :: 0 <= k < |s| ==> IsInt16(s[k])
    ensures |Encode(s)| == 2 * |s|
  {
    if s != [] {
      EncodeLength(s[1..]);
    }
  }

  /** Sample i read back from an encoding is the i-th encoded sample. */
  lemma SampleOfEncode(s: seq<int>, i: nat)
    requires forall k :: 0 <= k < |s| ==> IsInt16(s[k])
    requires i < |s|
    ensures |Samples(Encode(s))| == |s|
    ensures Samples(Encode(s))[i] == s[i]
  {
    var b := Encode(s);
    EncodeAt(s, i);
    var pair := b[2 * i .. 2 * i + 2];
    assert b[2 * i] == pair[0] && b[2 * i + 1] == pair[1];
    assert Samples(b)[i] == Int16LE(pair[0], pair[1]);
  }

  /** Decoding an encoded non-empty sample sequence gives it back. */
  lemma DecodeEncode(s: seq<int>)
    requires forall k :: 0 <= k < |s| ==> IsInt16(s[k])
    requires |s| > 0
    ensures Decode(Encode(s)) == Some(s)
  {
    var b := Encode(s);
    EncodeLength(s);
    forall i | 0 <= i < |s|
      ensures Samples(b)[i] == s[i]
    {
      SampleOfEncode(s, i);
    }
    assert Samples(b) == s;
  }

  /** Re-encoding a decoded sample gives back the two bytes it was read from. */
  lemma BytesOfWord(lo: Byte, hi: Byte)
    ensures EncodeSample(Int16LE(lo, hi)) == [lo, hi]
  {
    var w := lo as int + 256 * (hi as int);
    assert w % 256 == lo && w / 256 == hi;
  }

  /** Encoding the decoded samples of an even-length payload gives the payload back. */
  lemma EncodeDecode(b: seq<Byte>)
    requires |b| % 2 == 0
    ensures Encode(Samples(b)) == b
  {
    var s := Samples(b);
    var e := Encode(s);
    EncodeLength(s);
    forall j | 0 <= j < |b|
      ensures e[j] == b[j]
    {
      var i := j / 2;
      EncodeAt(s, i);
      BytesOfWord(b[2 * i], b[2 * i + 1]);
      assert e[2 * i .. 2 * i + 2] == [b[2 * i], b[2 * i + 1]];
      assert e[j] == e[2 * i .. 2 * i + 2][j - 2 * i];
    }
  }

  /**
    queueAudioBufferFromBase64 from the binary string on: copy the characters
    into a byte view, allocate a channel of n/2 frames and fill it sample by
    sample. The result is the channel's contents, or None where the source's
    try block throws.
  */
  method DecodePcm16(binary: string) returns (r: Option<seq<int>>)
    ensures r == Decode(Latin1Bytes(binary))
  {
    var n := |binary|;
    var view := new Byte[n];
    for i := 0 to n
      invariant forall k :: 0 <= k < i ==> view[k] == ToUint8(binary[k])
    {
      view[i] := ToUint8(binary[i]);
    }
    ghost var bytes := Latin1Bytes(binary);
    assert view[..] == bytes;

    // createBuffer truncates the fractional frame count and refuses zero frames
    var numSamples := n / 2;
    if numSamples == 0 {
      return None;
    }
    var channel := new int[numSamples];
    var i := 0;
    // `i < numSamples` with numSamples = n / 2 taken as a real number
    while 2 * i < n
      invariant 0 <= i <= numSamples
      invariant view[..] == bytes
      invariant forall k :: 0 <= k < i ==> channel[k] == Int16LE(bytes[2 * k], bytes[2 * k + 1])
    {
      if 2 * i + 2 > n {
        // getInt16 at the last, odd byte throws a RangeError
        return None;
      }
      channel[i] := Int16LE(view[2 * i], view[2 * i + 1]);
      i := i + 1;
    }
    assert channel[..] == Samples(bytes);
    return Some(channel[..]);
  }
}
