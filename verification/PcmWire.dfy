/**
 The PCM path from server samples to client samples: encodePCM and CreateAudioChunk (pkg/sendspin/server_stream.go),
 handleBinaryMessage (pkg/protocol/client.go), PCMDecoder (pkg/audio/decode/pcm.go) and the conversions of
 pkg/audio/types.go.
 Shifts are floor divisions, conversions to byte are remainders, and an | of disjoint bit ranges is a sum.
 */
module PcmWire {
  import opened Numbers

  type byte = uint8
  newtype int16 = x: int | -0x8000 <= x < 0x8000
  newtype int32 = x: int | -0x8000_0000 <= x < 0x8000_0000
  newtype int64 = x: int | -0x8000_0000_0000_0000 <= x < 0x8000_0000_0000_0000

  // ---------------------------------------------------------------- samples

  /** byte(s >> 8*k) */
  function ByteAt(s: int32, k: nat): byte
    requires k <= 2
  {
    var d := if k == 0 then 1 else if k == 1 then 256 else 65536;
    (s as int / d % 256) as byte
  }

  /** The three bytes of a 24-bit sample, lowest first. */
  datatype Triple = Triple(b0: byte, b1: byte, b2: byte)

  function SampleTo24Bit(s: int32): Triple { Triple(ByteAt(s, 0), ByteAt(s, 1), ByteAt(s, 2)) }

  function SampleFrom24Bit(b: Triple): int32 {
    var val := b.b0 as int + b.b1 as int * 256 + b.b2 as int * 65536;
    if val >= 0x80_0000 then (val - 0x100_0000) as int32 else val as int32
  }

  /** The low 24 bits, read as a signed number. */
  function SignExtend24(s: int32): int32 { ((s as int + 0x80_0000) % 0x100_0000 - 0x80_0000) as int32 }

  predicate In24BitRange(s: int32) { -0x80_0000 <= s < 0x80_0000 }

  /** The low 24 bits of x, assembled from its bytes. */
  lemma LowBytes(x: int)
    ensures x % 0x100_0000 == x % 256 + x / 256 % 256 * 256 + x / 65536 % 256 * 65536
  {
    DivideTwice(x);
    Digits3(x, x / 256, x / 65536);
    Residue24(x, x / 65536 / 256, x % 256 + x / 256 % 256 * 256 + x / 65536 % 256 * 65536);
  }

  lemma DivideTwice(x: int)
    ensures x / 65536 == x / 256 / 256
  {
  }

  lemma Digits3(x: int, x1: int, x2: int)
    requires x1 == x / 256 && x2 == x1 / 256
    ensures x == x2 / 256 * 0x100_0000 + (x % 256 + x1 % 256 * 256 + x2 % 256 * 65536)
  {
  }

  lemma Residue24(x: int, q: int, low: int)
    requires x == q * 0x100_0000 + low && 0 <= low < 0x100_0000
    ensures x % 0x100_0000 == low
  {
  }

  /** Subtracting 2^24 from the upper half of the residues is the signed reading of the low 24 bits. */
  lemma SignedResidue(x: int)
    ensures var low := x % 0x100_0000;
      (x + 0x80_0000) % 0x100_0000 - 0x80_0000 == if low >= 0x80_0000 then low - 0x100_0000 else low
  {
    var q := x / 0x100_0000;
    var low := x % 0x100_0000;
    assert x == q * 0x100_0000 + low;
    if low >= 0x80_0000 {
      assert x + 0x80_0000 == (q + 1) * 0x100_0000 + (low - 0x80_0000);
    }
  }

  lemma SampleRoundTrip(s: int32)
    ensures SampleFrom24Bit(SampleTo24Bit(s)) == SignExtend24(s)
    ensures SampleFrom24Bit(SampleTo24Bit(s)) == s <==> In24BitRange(s)
  {
    AssembledBytes(s);
    LowBytes(s as int);
    SignedResidue(s as int);
    hide ByteAt, SampleFrom24Bit;
  }

  lemma AssembledBytes(s: int32)
    ensures var x := s as int; var low := x % 256 + x / 256 % 256 * 256 + x / 65536 % 256 * 65536;
      SampleFrom24Bit(SampleTo24Bit(s)) as int == if low >= 0x80_0000 then low - 0x100_0000 else low
  {
  }

  lemma BytesRoundTrip(b: Triple)
    ensures SampleTo24Bit(SampleFrom24Bit(b)) == b && In24BitRange(SampleFrom24Bit(b))
  {
    var x := SampleFrom24Bit(b) as int;
    var hi := if b.b2 >= 128 then b.b2 as int - 256 else b.b2 as int;
    assert x == hi * 65536 + b.b1 as int * 256 + b.b0 as int;
    assert x / 256 == hi * 256 + b.b1 as int;
    assert x / 65536 == hi;
  }

  /** int16(sample >> 8) */
  function SampleToInt16(s: int32): int16 { ((s as int / 256 + 0x8000) % 0x1_0000 - 0x8000) as int16 }

  /** Left-justified in 24 bits. */
  function SampleFromInt16(x: int16): int32 { (x as int * 256) as int32 }

  /**
   16-bit samples survive the trip up and down; the other way exactly those with a zero low byte in the 24-bit range
   do.
   */
  lemma Int16RoundTrip(x: int16, s: int32)
    ensures In24BitRange(SampleFromInt16(x)) && SampleToInt16(SampleFromInt16(x)) == x
    ensures SampleFromInt16(SampleToInt16(s)) == s <==> In24BitRange(s) && s as int % 256 == 0
    ensures In24BitRange(s) ==> SampleToInt16(s) as int * 256 <= s as int < SampleToInt16(s) as int * 256 + 256
  {
    var q := s as int / 256;
    assert s as int == q * 256 + s as int % 256;
    assert -0x8000 <= q < 0x8000 ==> SampleToInt16(s) as int == q;
  }

  // ---------------------------------------------------------------- encode and decode

  function Encoded(samples: seq<int32>): seq<byte> {
    if samples == [] then []
    else
      var b := SampleTo24Bit(samples[|samples| - 1]);
      Encoded(samples[..|samples| - 1]) + [b.b0, b.b1, b.b2]
  }

  lemma {:induction false} EncodedAt(samples: seq<int32>, i: nat)
    ensures |Encoded(samples)| == 3 * |samples|
    ensures i < |samples| ==> var b := SampleTo24Bit(samples[i]);
      Encoded(samples)[3 * i] == b.b0 && Encoded(samples)[3 * i + 1] == b.b1 && Encoded(samples)[3 * i + 2] == b.b2
  {
    hide SampleTo24Bit;
    if samples == [] {
    } else {
      EncodedAt(samples[..|samples| - 1], i);
    }
  }

  lemma EncodedNone()
    ensures Encoded([]) == []
  {
  }

  lemma EncodedMore(samples: seq<int32>, i: nat)
    requires i < |samples|
    ensures var b := SampleTo24Bit(samples[i]); Encoded(samples[..i + 1]) == Encoded(samples[..i]) + [b.b0, b.b1, b.b2]
  {
    assert samples[..i + 1][..i] == samples[..i];
  }

  method EncodePCM(samples: seq<int32>) returns (output: array<byte>)
    ensures fresh(output) && output[..] == Encoded(samples)
  {
    hide ByteAt, Encoded;
    output := new byte[|samples| * 3](_ => 0);
    EncodedAt(samples, 0);
    EncodedNone();
    assert samples[..0] == [];
    for i := 0 to |samples|
      invariant output[..3 * i] == Encoded(samples[..i])
    {
      EncodedMore(samples, i);
      ghost var done := output[..3 * i];
      var sample := samples[i];
      output[i * 3] := ByteAt(sample, 0);
      output[i * 3 + 1] := ByteAt(sample, 1);
      output[i * 3 + 2] := ByteAt(sample, 2);
      assert output[..3 * (i + 1)] == done + [output[3 * i], output[3 * i + 1], output[3 * i + 2]];
    }
    assert samples[..|samples|] == samples;
  }

  /** On the wire a sample's low 24 bits stand lowest byte first. */
  lemma LittleEndian(samples: seq<int32>, i: nat)
    requires i < |samples|
    ensures |Encoded(samples)| == 3 * |samples|
    ensures var b := Encoded(samples);
      samples[i] as int % 0x100_0000 == b[3 * i] as int + 256 * b[3 * i + 1] as int + 65536 * b[3 * i + 2] as int
  {
    EncodedAt(samples, i);
    LowBytes(samples[i] as int);
  }

  /** 24-bit decoding; bytes left over after the last whole sample are ignored. */
  function Decoded24(data: seq<byte>): (r: seq<int32>)
    ensures |r| == |data| / 3
  {
    seq(|data| / 3, i requires 0 <= i < |data| / 3 =>
      SampleFrom24Bit(Triple(data[i * 3], data[i * 3 + 1], data[i * 3 + 2])))
  }

  /** int16(Uint16(lo, hi)) */
  function Int16Of(lo: byte, hi: byte): int16 {
    var v := lo as int + hi as int * 256;
    (if v >= 0x8000 then v - 0x1_0000 else v) as int16
  }

  function Decoded16(data: seq<byte>): (r: seq<int32>)
    ensures |r| == |data| / 2
  {
    seq(|data| / 2, i requires 0 <= i < |data| / 2 => SampleFromInt16(Int16Of(data[i * 2], data[i * 2 + 1])))
  }

  /** A decoded 16-bit sample, lowest byte first, is the signed number of its two bytes in the upper 16 of 24 bits. */
  lemma SixteenBits(data: seq<byte>, i: nat)
    requires i < |data| / 2
    ensures var x := data[2 * i] as int + 256 * data[2 * i + 1] as int; var y := Decoded16(data)[i] as int;
      y == 256 * if x < 0x8000 then x else x - 0x1_0000
  {
  }

  method Decode(data: seq<byte>, bitDepth: int) returns (samples: array<int32>)
    ensures fresh(samples) && samples[..] == if bitDepth == 24 then Decoded24(data) else Decoded16(data)
  {
    hide SampleFrom24Bit, SampleFromInt16, Int16Of;
    if bitDepth == 24 {
      var numSamples := |data| / 3;
      samples := new int32[numSamples](_ => 0);
      for i := 0 to numSamples
        invariant samples[..i] == Decoded24(data)[..i]
      {
        samples[i] := SampleFrom24Bit(Triple(data[i * 3], data[i * 3 + 1], data[i * 3 + 2]));
      }
    } else {
      var numSamples := |data| / 2;
      samples := new int32[numSamples](_ => 0);
      for i := 0 to numSamples
        invariant samples[..i] == Decoded16(data)[..i]
      {
        samples[i] := SampleFromInt16(Int16Of(data[i * 2], data[i * 2 + 1]));
      }
    }
  }

  // ---------------------------------------------------------------- frames

  const AUDIO_CHUNK: byte := 4
  const ARTWORK_CHANNEL_0: byte := 8
  const ARTWORK_CHANNEL_3: byte := 11
  const HEADER_SIZE: nat := 9

  /** The n low bytes of u, highest first. */
  function Digits(u: nat, n: nat): (r: seq<byte>)
    ensures |r| == n
  {
    if n == 0 then [] else Digits(u / 256, n - 1) + [(u % 256) as byte]
  }

  function Number(b: seq<byte>): nat {
    if b == [] then 0 else Number(b[..|b| - 1]) * 256 + b[|b| - 1] as int
  }

  function Pow256(n: nat): (r: nat)
    ensures r > 0
  {
    if n == 0 then 1 else 256 * Pow256(n - 1)
  }

  lemma {:induction false} NumberDigits(u: nat, n: nat)
    requires u < Pow256(n)
    ensures Number(Digits(u, n)) == u
  {
    if n == 0 {
    } else {
      NumberDigits(u / 256, n - 1);
      assert Digits(u, n)[..n - 1] == Digits(u / 256, n - 1);
    }
  }

  lemma {:induction false} DigitsNumber(b: seq<byte>)
    ensures Number(b) < Pow256(|b|) && Digits(Number(b), |b|) == b
  {
    if b == [] {
    } else {
      DigitsNumber(b[..|b| - 1]);
    }
  }

  lemma EightBytes()
    ensures Pow256(8) == TWO_64
  {
    assert Pow256(2) == 65536;
    assert Pow256(4) == 65536 * Pow256(2);
    assert Pow256(6) == 65536 * Pow256(4);
    assert Pow256(8) == 65536 * Pow256(6);
  }

  /** PutUint64(uint64(timestamp)) */
  function BigEndian(timestamp: int64): (r: seq<byte>)
    ensures |r| == 8
  {
    Digits(timestamp as int % TWO_64, 8)
  }

  /** int64(Uint64(b)) */
  function FromBigEndian(b: seq<byte>): int64
    requires |b| == 8
  {
    Wrap64(Number(b)) as int64
  }

  /** The two 64-bit readings of a number undo each other. */
  lemma WrapResidue(x: int)
    ensures -TWO_63 <= x < TWO_63 ==> Wrap64(x % TWO_64) == x
    ensures 0 <= x < TWO_64 ==> Wrap64(x) % TWO_64 == x
  {
  }

  lemma BigEndianRoundTrip(t: int64)
    ensures FromBigEndian(BigEndian(t)) == t
  {
    EightBytes();
    hide Number, Digits, Pow256;
    NumberDigits(t as int % TWO_64, 8);
    WrapResidue(t as int);
  }

  /** The eight bytes of a timestamp, highest first, negative ones in two's complement. */
  lemma BigEndianBytes(t: int64)
    ensures var b := BigEndian(t);
      t as int == (if b[0] < 128 then 0 else -TWO_64) + 0x100_0000_0000_0000 * b[0] as int
        + 0x1_0000_0000_0000 * b[1] as int + 0x100_0000_0000 * b[2] as int + 0x1_0000_0000 * b[3] as int
        + 0x100_0000 * b[4] as int + 0x1_0000 * b[5] as int + 0x100 * b[6] as int + b[7] as int
  {
    var u := t as int % TWO_64;
    var b := Digits(u, 8);
    DigitSteps(u);
    hide Digits;
  }

  /** Eight divisions by 256. */
  lemma DigitSteps(u: nat)
    requires u < TWO_64
    ensures var b := Digits(u, 8);
      u == 0x100_0000_0000_0000 * b[0] as int + 0x1_0000_0000_0000 * b[1] as int + 0x100_0000_0000 * b[2] as int
        + 0x1_0000_0000 * b[3] as int + 0x100_0000 * b[4] as int + 0x1_0000 * b[5] as int
        + 0x100 * b[6] as int + b[7] as int
  {
    var u1, u2 := u / 256, u / 256 / 256;
    var u3, u4 := u2 / 256, u2 / 256 / 256;
    var u5, u6 := u4 / 256, u4 / 256 / 256;
    var u7 := u6 / 256;
    DigitsLast(u, 8); DigitsLast(u1, 7); DigitsLast(u2, 6); DigitsLast(u3, 5);
    DigitsLast(u4, 4); DigitsLast(u5, 3); DigitsLast(u6, 2); DigitsLast(u7, 1);
    hide Digits;
  }

  lemma DigitsLast(u: nat, n: nat)
    requires n > 0
    ensures Digits(u, n) == Digits(u / 256, n - 1) + [(u % 256) as byte]
  {
  }

  lemma FromBigEndianRoundTrip(b: seq<byte>)
    requires |b| == 8
    ensures BigEndian(FromBigEndian(b)) == b
  {
    EightBytes();
    hide Number, Digits, Pow256;
    DigitsNumber(b);
    WrapResidue(Number(b));
  }

  function CreateAudioChunk(timestamp: int64, audioData: seq<byte>): seq<byte> {
    [AUDIO_CHUNK] + BigEndian(timestamp) + audioData
  }

  function CreateArtworkChunk(channel: byte, timestamp: int64, imageData: seq<byte>): seq<byte>
    requires channel <= 3
  {
    [ARTWORK_CHANNEL_0 + channel] + BigEndian(timestamp) + imageData
  }

  /** Where handleBinaryMessage sends a message, or why it drops it. */
  datatype Message =
    | TooShort
    | Unknown
    | Audio(timestamp: int64, data: seq<byte>)
    | Artwork(channel: byte, timestamp: int64, data: seq<byte>)

  function HandleBinaryMessage(data: seq<byte>): Message {
    if |data| < HEADER_SIZE then TooShort
    else
      var msgType, timestamp, payload := data[0], FromBigEndian(data[1..HEADER_SIZE]), data[HEADER_SIZE..];
      if msgType == AUDIO_CHUNK then Audio(timestamp, payload)
      else if ARTWORK_CHANNEL_0 <= msgType <= ARTWORK_CHANNEL_3 then
        Artwork(msgType - ARTWORK_CHANNEL_0, timestamp, payload)
      else Unknown
  }

  /**
   Framing is exact in both directions: a message parses as this audio chunk if and only if it is that chunk's frame.
   */
  lemma AudioFraming(data: seq<byte>, timestamp: int64, payload: seq<byte>)
    ensures HandleBinaryMessage(data) == Audio(timestamp, payload) <==> data == CreateAudioChunk(timestamp, payload)
  {
    hide BigEndian, FromBigEndian;
    BigEndianRoundTrip(timestamp);
    var frame := CreateAudioChunk(timestamp, payload);
    assert frame[1..HEADER_SIZE] == BigEndian(timestamp) && frame[HEADER_SIZE..] == payload;
    if HandleBinaryMessage(data) == Audio(timestamp, payload) {
      FromBigEndianRoundTrip(data[1..HEADER_SIZE]);
      assert data == [data[0]] + data[1..HEADER_SIZE] + data[HEADER_SIZE..];
    }
  }

  lemma ArtworkFraming(data: seq<byte>, channel: byte, timestamp: int64, payload: seq<byte>)
    requires channel <= 3
    ensures HandleBinaryMessage(data) == Artwork(channel, timestamp, payload) <==>
      data == CreateArtworkChunk(channel, timestamp, payload)
  {
    hide BigEndian, FromBigEndian;
    BigEndianRoundTrip(timestamp);
    var frame := CreateArtworkChunk(channel, timestamp, payload);
    assert frame[1..HEADER_SIZE] == BigEndian(timestamp) && frame[HEADER_SIZE..] == payload;
    if HandleBinaryMessage(data) == Artwork(channel, timestamp, payload) {
      FromBigEndianRoundTrip(data[1..HEADER_SIZE]);
      assert data == [data[0]] + data[1..HEADER_SIZE] + data[HEADER_SIZE..];
    }
  }

  /** Only messages shorter than a header or of another type are dropped. */
  lemma DroppedIff(data: seq<byte>)
    ensures HandleBinaryMessage(data) == TooShort <==> |data| < 9
    ensures HandleBinaryMessage(data) == Unknown <==> |data| >= 9 && data[0] != 4 && !(8 <= data[0] <= 11)
  {
  }

  /** The frames byte by byte: the type, 4 for audio and 8 to 11 for artwork, eight bytes of timestamp, the payload. */
  lemma FrameLayout(timestamp: int64, payload: seq<byte>, channel: byte)
    requires channel <= 3
    ensures var a, w := CreateAudioChunk(timestamp, payload), CreateArtworkChunk(channel, timestamp, payload);
      && a == [4] + BigEndian(timestamp) + payload
      && w == [8 + channel] + BigEndian(timestamp) + payload
      && |a| == |w| == 9 + |payload|
  {
  }

  /**
   The whole path, for every timestamp and every sequence of samples: the client sees the same timestamp and each
   sample's low 24 bits, sign-extended; exactly the samples of the 24-bit range come through unchanged.
   */
  lemma WireRoundTrip(timestamp: int64, samples: seq<int32>)
    ensures var m := HandleBinaryMessage(CreateAudioChunk(timestamp, Encoded(samples)));
      && m.Audio? && m.timestamp == timestamp
      && |Decoded24(m.data)| == |samples|
      && (forall i :: 0 <= i < |samples| ==> Decoded24(m.data)[i] == SignExtend24(samples[i]))
      && (Decoded24(m.data) == samples <==> forall i :: 0 <= i < |samples| ==> In24BitRange(samples[i]))
  {
    AudioFraming(CreateAudioChunk(timestamp, Encoded(samples)), timestamp, Encoded(samples));
    EncodedAt(samples, 0);
    hide SampleTo24Bit, SampleFrom24Bit, SignExtend24, In24BitRange, CreateAudioChunk, HandleBinaryMessage, Encoded;
    var r := Decoded24(Encoded(samples));
    forall i | 0 <= i < |samples|
      ensures r[i] == SignExtend24(samples[i]) && (r[i] == samples[i] <==> In24BitRange(samples[i]))
    {
      EncodedAt(samples, i);
      SampleRoundTrip(samples[i]);
    }
  }
}
