/**
 Re-chunking in FLACSource.Read, internal/server/audio_source.go: frames in, fixed-size reads out, looping for ever.
 */
module FlacSources {
  import opened Numbers

  // ---------------------------------------------------------------- one frame

  /** A decoded frame: per channel, blockSize samples of the file's bit depth. */
  datatype Frame = Frame(blockSize: nat, subframes: seq<seq<int>>)

  predicate WellFormed(f: Frame, channels: nat) {
    |f.subframes| >= channels && forall ch :: 0 <= ch < channels ==> |f.subframes[ch]| >= f.blockSize
  }

  const TWO_31: int := 0x8000_0000
  const TWO_23: int := 0x80_0000

  function Wrap32(x: int): (r: int)
    ensures -TWO_31 <= r < TWO_31
    ensures -TWO_31 <= x < TWO_31 ==> r == x
  {
    (x + TWO_31) % (2 * TWO_31) - TWO_31
  }

  /** A sample of the given depth, moved into the 24-bit range. */
  function Convert(bitDepth: nat, sample: int): int {
    if bitDepth == 16 then Wrap32(sample * 256)
    else if bitDepth == 24 then sample
    else if bitDepth > 24 then FloorDiv(sample, Pow2(bitDepth - 24))
    else Wrap32(sample * Pow2(24 - bitDepth))
  }

  /** An arithmetic right shift, as division. */
  function FloorDiv(a: int, b: int): (q: int)
    requires b > 0
    ensures q * b <= a < q * b + b
  {
    a / b
  }

  /** Samples that fit their depth land in the 24-bit range, at every depth, without wrapping. */
  lemma ConvertFits(bitDepth: nat, sample: int)
    requires 1 <= bitDepth && -Pow2(bitDepth - 1) <= sample < Pow2(bitDepth - 1)
    ensures -0x80_0000 <= Convert(bitDepth, sample) < 0x80_0000
    ensures bitDepth <= 24 ==> Convert(bitDepth, sample) == sample * Pow2(24 - bitDepth)
    ensures bitDepth > 24 ==>
      var k := Pow2(bitDepth - 24); Convert(bitDepth, sample) * k <= sample < (Convert(bitDepth, sample) + 1) * k
  {
    ByteShift();
    hide Pow2, Wrap32;
    if bitDepth <= 24 {
      Pow2Add(bitDepth - 1, 24 - bitDepth);
      ScaleBounds(sample, Pow2(bitDepth - 1), Pow2(24 - bitDepth));
    } else {
      Pow2Add(23, bitDepth - 24);
      QuotientBounds(sample, TWO_23, Pow2(bitDepth - 24));
    }
  }

  lemma ByteShift()
    ensures Pow2(0) == 1 && Pow2(8) == 256 && Pow2(23) == TWO_23
  {
    assert Pow2(4) == 16;
    Pow2Add(4, 4); Pow2Add(4, 3); Pow2Add(8, 8); Pow2Add(16, 7);
  }

  lemma ScaleBounds(x: int, n: int, k: int)
    requires -n <= x < n && k > 0
    ensures -(n * k) <= x * k < n * k
  {
    assert (x + n) * k >= 0 && (n - x) * k > 0;
  }

  lemma QuotientBounds(x: int, n: int, k: int)
    requires k > 0 && -(n * k) <= x < n * k
    ensures -n <= FloorDiv(x, k) < n
  {
    var q := FloorDiv(x, k);
    if q >= n { ScaleUp(n, q, k); }
    if q < -n { ScaleUp(q + 1, -n, k); }
  }

  /** The frame's samples in playing order: all channels of one instant, then the next. */
  function Interleaved(f: Frame, channels: nat, bitDepth: nat): (r: seq<int>)
    requires WellFormed(f, channels)
    ensures |r| == f.blockSize * channels
  {
    seq(f.blockSize * channels, k requires 0 <= k < f.blockSize * channels =>
      InRange(k, f.blockSize, channels);
      Convert(bitDepth, f.subframes[k % channels][k / channels]))
  }

  lemma InRange(k: nat, n: nat, c: nat)
    requires k < n * c
    ensures c > 0 && k / c < n
  {
    assert c > 0;
    if k / c >= n { ScaleUp(n, k / c, c); }
  }

  lemma Position(i: nat, ch: nat, c: nat)
    requires ch < c
    ensures (i * c + ch) / c == i && (i * c + ch) % c == ch
  {
    var x := i * c + ch;
    assert x == c * (x / c) + x % c;
    if x / c < i { ScaleUp(x / c + 1, i, c); }
    if x / c > i { ScaleUp(i + 1, x / c, c); }
  }

  lemma IndexBound(i: nat, ch: nat, n: nat, c: nat)
    requires i < n && ch < c
    ensures i * c + ch < n * c
  {
    ScaleUp(i + 1, n, c);
  }

  /** Sample number i of channel ch stands at i*channels + ch. */
  lemma InterleavedAt(f: Frame, channels: nat, bitDepth: nat, i: nat, ch: nat)
    requires WellFormed(f, channels) && i < f.blockSize && ch < channels
    ensures i * channels + ch < |Interleaved(f, channels, bitDepth)| == f.blockSize * channels
    ensures Interleaved(f, channels, bitDepth)[i * channels + ch] == Convert(bitDepth, f.subframes[ch][i])
  {
    IndexBound(i, ch, f.blockSize, channels);
    Position(i, ch, channels);
    hide Convert;
  }

  lemma Rows(i: nat, n: nat, c: nat)
    requires i < n
    ensures (i + 1) * c == i * c + c <= n * c
  {
    ScaleUp(i + 1, n, c);
  }

  method DecodeFrame(f: Frame, channels: nat, bitDepth: nat) returns (frameSamples: array<int>)
    requires WellFormed(f, channels)
    ensures fresh(frameSamples) && frameSamples[..] == Interleaved(f, channels, bitDepth)
  {
    var frameSize := f.blockSize * channels;
    ghost var want := Interleaved(f, channels, bitDepth);
    frameSamples := new int[frameSize](_ => 0);
    var frameIdx := 0;
    for i := 0 to f.blockSize
      invariant frameIdx == i * channels && frameIdx <= frameSize
      invariant frameSamples[..frameIdx] == want[..frameIdx]
    {
      Rows(i, f.blockSize, channels);
      for ch := 0 to channels
        invariant frameIdx == i * channels + ch && frameIdx <= frameSize
        invariant frameSamples[..frameIdx] == want[..frameIdx]
      {
        IndexBound(i, ch, f.blockSize, channels);
        Position(i, ch, channels);
        frameSamples[frameIdx] := Convert(bitDepth, f.subframes[ch][i]);
        frameIdx := frameIdx + 1;
      }
      Rows(i, f.blockSize, channels);
    }
  }

  predicate AllWellFormed(file: seq<Frame>, channels: nat) {
    forall i :: 0 <= i < |file| ==> WellFormed(file[i], channels)
  }

  /** Every frame of the file, decoded. */
  function DecodedFile(file: seq<Frame>, channels: nat, bitDepth: nat): (r: seq<seq<int>>)
    requires AllWellFormed(file, channels)
    ensures |r| == |file|
    ensures forall i :: 0 <= i < |file| ==> r[i] == Interleaved(file[i], channels, bitDepth)
  {
    seq(|file|, i requires 0 <= i < |file| => Interleaved(file[i], channels, bitDepth))
  }

  // ---------------------------------------------------------------- the looped stream

  function Flat(frames: seq<seq<int>>): seq<int> {
    if frames == [] then [] else frames[0] + Flat(frames[1..])
  }

  /** Sample number i of `flat` repeated without end. */
  function At(flat: seq<int>, i: nat): int
    requires flat != []
  {
    flat[i % |flat|]
  }

  lemma FlatAt(frames: seq<seq<int>>, k: nat)
    requires k < |frames|
    ensures Flat(frames[k..]) == frames[k] + Flat(frames[k + 1..])
  {
    assert frames[k..][1..] == frames[k + 1..];
  }

  lemma CutJoined(a: seq<int>, b: seq<int>, k: nat)
    requires k <= |a|
    ensures (a + b)[..k] == a[..k] && (a + b)[k..] == a[k..] + b
  {
  }

  lemma EndOfFile(frames: seq<seq<int>>)
    ensures Flat(frames[|frames|..]) == [] && frames[0..] == frames
  {
  }

  /** n samples of the endless stream, from position `start` on. */
  function Stream(flat: seq<int>, start: nat, n: nat): (r: seq<int>)
    ensures flat != [] ==> |r| == n
    ensures flat == [] ==> r == []
  {
    if flat == [] then [] else seq(n, i requires 0 <= i < n => At(flat, start + i))
  }

  lemma StreamSplits(flat: seq<int>, start: nat, m: nat, n: nat)
    ensures Stream(flat, start, m) + Stream(flat, start + m, n) == Stream(flat, start, m + n)
  {
    hide At;
    if flat != [] {
      var l, r := Stream(flat, start, m) + Stream(flat, start + m, n), Stream(flat, start, m + n);
      forall i | 0 <= i < m + n ensures l[i] == r[i] {
        if i >= m { assert start + i == start + m + (i - m); }
      }
    }
  }

  predicate Multiple(x: nat, n: nat) { n > 0 && x % n == 0 }

  /** `pending`, what the reader holds plus the rest of the file, is where `consumed` samples leave the loop. */
  ghost predicate InStep(flat: seq<int>, pending: seq<int>, consumed: nat) {
    && |pending| <= |flat| && pending == flat[|flat| - |pending|..]
    && (flat != [] ==> Multiple(consumed + |pending|, |flat|))
  }

  lemma TakePending(flat: seq<int>, pending: seq<int>, consumed: nat, k: nat)
    requires InStep(flat, pending, consumed) && k <= |pending|
    ensures pending[..k] == Stream(flat, consumed, k)
    ensures InStep(flat, pending[k..], consumed + k)
  {
    hide At, Multiple;
    var got := Stream(flat, consumed, k);
    forall i | 0 <= i < k ensures got[i] == pending[i] {
      NearMultiple(flat, consumed, |pending|, i);
    }
    assert consumed + k + |pending[k..]| == consumed + |pending|;
  }

  lemma NearMultiple(flat: seq<int>, c: nat, p: nat, i: nat)
    requires i < p <= |flat| && Multiple(c + p, |flat|)
    ensures At(flat, c + i) == flat[|flat| - p + i]
  {
    var n := |flat|;
    var q := (c + p) / n;
    assert c + p == n * q;
    assert n * (q - 1) == n * q - n;
    Remainder(c + i, q - 1, n - p + i, n);
  }

  lemma Remainder(x: int, q: int, r: int, n: int)
    requires 0 <= r < n && x == n * q + r
    ensures x % n == r
  {
    assert x == n * (x / n) + x % n;
    if x / n < q { ScaleUp(x / n + 1, q, n); }
    if x / n > q { ScaleUp(q + 1, x / n, n); }
  }

  /** At the end of the file the loop starts over. */
  lemma StartOver(flat: seq<int>, consumed: nat)
    requires InStep(flat, [], consumed)
    ensures InStep(flat, flat, consumed)
  {
    if flat != [] { NextMultiple(consumed, |flat|); }
  }

  lemma FromStart(flat: seq<int>)
    ensures InStep(flat, flat, 0)
  {
    StartOver(flat, 0);
  }

  lemma NextMultiple(c: nat, n: nat)
    requires Multiple(c, n)
    ensures Multiple(c + n, n)
  {
    var q := c / n;
    assert c == n * q;
    assert n * (q + 1) == n * q + n;
    Remainder(c + n, q + 1, 0, n);
  }

  // ---------------------------------------------------------------- how many parses a sample can cost

  /** Index of the first non-empty frame from k on; |frames| if there is none. */
  function FirstFull(frames: seq<seq<int>>, k: nat): (r: nat)
    requires k <= |frames|
    ensures k <= r <= |frames|
    ensures r < |frames| ==> frames[r] != []
    ensures forall i :: k <= i < r ==> frames[i] == []
    decreases |frames| - k
  {
    if k == |frames| || frames[k] != [] then k else FirstFull(frames, k + 1)
  }

  /** Parses until a non-empty frame comes, counting the end of the file as one. */
  function Distance(frames: seq<seq<int>>, next: nat): (d: nat)
    requires next <= |frames|
    ensures FirstFull(frames, 0) < |frames| ==> 1 <= d <= 2 * |frames| + 1
  {
    var r := FirstFull(frames, next);
    if r < |frames| then r - next + 1 else |frames| - next + 1 + FirstFull(frames, 0) + 1
  }

  /** Parses that always suffice for n samples. */
  function Enough(frames: seq<seq<int>>, n: nat): nat { n * (2 * |frames| + 2) }

  /** With n samples delivered and a non-empty frame in the file, `used` parses is on course for Enough. */
  ghost predicate OnCourse(frames: seq<seq<int>>, next: nat, used: nat, n: nat)
    requires next <= |frames|
  {
    FirstFull(frames, 0) < |frames| ==> used + Distance(frames, next) < (n + 1) * (2 * |frames| + 2)
  }

  lemma OnCourseFirst(frames: seq<seq<int>>, next: nat, n: nat)
    requires next <= |frames|
    ensures OnCourse(frames, next, 0, n)
  {
    assert n * (2 * |frames| + 2) >= 0;
  }

  /** A parse that yields nothing brings the next sample one parse nearer. */
  lemma OnCourseSkip(frames: seq<seq<int>>, next: nat, used: nat, n: nat)
    requires next <= |frames| && OnCourse(frames, next, used, n) && (next == |frames| || frames[next] == [])
    ensures OnCourse(frames, if next == |frames| then 0 else next + 1, used + 1, n)
  {
  }

  lemma OnCourseTake(frames: seq<seq<int>>, next: nat, used: nat, n: nat, k: nat)
    requires next < |frames| && OnCourse(frames, next, used, n) && frames[next] != [] && k > 0
    ensures OnCourse(frames, next + 1, used + 1, n + k)
  {
    var m := 2 * |frames| + 2;
    assert (n + k + 1) * m == (n + 1) * m + k * m;
    ScaleUp(1, k, m);
  }

  lemma OnCourseEnough(frames: seq<seq<int>>, next: nat, used: nat, n: nat, want: nat)
    requires next <= |frames| && OnCourse(frames, next, used, n) && n < want && FirstFull(frames, 0) < |frames|
    ensures used < Enough(frames, want)
  {
    ScaleUp(n + 1, want, 2 * |frames| + 2);
  }

  lemma {:induction false} FlatEmpty(frames: seq<seq<int>>)
    ensures Flat(frames) == [] <==> FirstFull(frames, 0) == |frames|
  {
    if frames == [] {
    } else {
      FlatEmpty(frames[1..]);
      var r, r1 := FirstFull(frames, 0), FirstFull(frames[1..], 0);
      if frames[0] == [] {
        if r < |frames| { assert frames[1..][r - 1] != []; }
        if r1 < |frames| - 1 { assert frames[r1 + 1] != []; }
      }
    }
  }

  // ---------------------------------------------------------------- the source

  datatype Error = NoError | ParseError | ReopenError

  class FLACSource {
    const file: seq<Frame>
    const channels: nat
    const bitDepth: nat
    var next: nat                // the stream's position in the file
    var frameBuffer: seq<int>
    var frameBufferPos: nat
    ghost const frames: seq<seq<int>>  // the file, decoded
    ghost var consumed: nat            // samples handed out so far

    ghost predicate Valid()
      reads this
    {
      && Opened() && |frames| == |file|
      && next <= |frames| && frameBufferPos <= |frameBuffer| && InStep(Flat(frames), Pending(), consumed)
    }

    ghost predicate Opened() {
      AllWellFormed(file, channels) && frames == DecodedFile(file, channels, bitDepth)
    }

    ghost function Pending(): seq<int>
      requires next <= |frames| && frameBufferPos <= |frameBuffer|
      reads this
    {
      frameBuffer[frameBufferPos..] + Flat(frames[next..])
    }

    constructor (file: seq<Frame>, channels: nat, bitDepth: nat)
      requires AllWellFormed(file, channels)
      ensures Valid() && frames == DecodedFile(file, channels, bitDepth) && consumed == 0
    {
      this.file, this.channels, this.bitDepth := file, channels, bitDepth;
      frames := DecodedFile(file, channels, bitDepth);
      next, frameBuffer, frameBufferPos, consumed := 0, [], 0, 0;
      new;
      hide InStep, Flat, DecodedFile, AllWellFormed;
      EndOfFile(frames);
      FromStart(Flat(frames));
      assert Pending() == [] + Flat(frames) == Flat(frames);
    }

    /** Hands out what is left of the buffered frame. */
    method Drain(samples: array<int>) returns (toCopy: nat)
      requires Valid()
      modifies this`frameBufferPos, this`consumed, samples
      ensures Valid() && toCopy <= samples.Length && consumed == old(consumed) + toCopy
      ensures samples[..toCopy] == Stream(Flat(frames), old(consumed), toCopy)
      ensures toCopy < samples.Length ==> frameBufferPos == |frameBuffer|
    {
      hide InStep, Flat, Stream, Opened;
      var available := |frameBuffer| - frameBufferPos;
      toCopy := if samples.Length > available then available else samples.Length;
      ghost var pending := Pending();
      TakePending(Flat(frames), pending, consumed, toCopy);
      Copy(samples, 0, frameBuffer[frameBufferPos..frameBufferPos + toCopy]);
      assert samples[..toCopy] == pending[..toCopy];
      frameBufferPos := frameBufferPos + toCopy;
      consumed := consumed + toCopy;
      assert Pending() == pending[toCopy..];
    }

    method NextFrame() returns (frameSamples: array<int>)
      requires Opened() && next < |frames|
      ensures fresh(frameSamples) && frameSamples[..] == frames[next]
    {
      frameSamples := DecodeFrame(file[next], channels, bitDepth);
    }

    /** Copies the head of a freshly parsed frame and buffers the rest. */
    method Deliver(samples: array<int>, at: nat) returns (toCopy: nat)
      requires Valid() && at < samples.Length && frameBufferPos == |frameBuffer| && next < |frames|
      modifies this, samples
      ensures Valid() && next == old(next) + 1 && at + toCopy <= samples.Length && consumed == old(consumed) + toCopy
      ensures toCopy == Min(|frames[old(next)]|, samples.Length - at)
      ensures samples[..at] == old(samples[..at])
      ensures samples[at..at + toCopy] == Stream(Flat(frames), old(consumed), toCopy)
      ensures at + toCopy < samples.Length ==> frameBufferPos == |frameBuffer|
    {
      hide InStep, Stream, Flat, Opened;
      ghost var pending := Pending();
      var frameSamples := NextFrame();
      ghost var decoded := frameSamples[..];
      FlatAt(frames, next);
      ghost var rest := Flat(frames[next + 1..]);
      assert pending == [] + (decoded + rest) == decoded + rest;
      next := next + 1;
      toCopy := Min(frameSamples.Length, samples.Length - at);
      TakePending(Flat(frames), pending, consumed, toCopy);
      CutJoined(decoded, rest, toCopy);
      Copy(samples, at, frameSamples[..toCopy]);
      consumed := consumed + toCopy;
      if toCopy < frameSamples.Length {
        frameBuffer, frameBufferPos := frameSamples[..], toCopy;
      }
      assert frameBuffer[frameBufferPos..] == decoded[toCopy..];
      assert Pending() == decoded[toCopy..] + rest;
    }

    /**
     Fills `samples` with the next stretch of the endless stream. `parses` calls of ParseNext succeed (the end of the
     file is such a success) before one fails, and reopening works if `reopens`. On an error what
     was read is still right.
     */
    method Read(samples: array<int>, parses: nat, reopens: bool) returns (samplesRead: nat, err: Error)
      requires Valid()
      modifies this, samples
      ensures Valid() && samplesRead <= samples.Length && consumed == old(consumed) + samplesRead
      ensures samples[..samplesRead] == Stream(Flat(frames), old(consumed), samplesRead)
      ensures err == NoError <==> samplesRead == samples.Length
      ensures Flat(frames) != [] && reopens && parses >= Enough(frames, samples.Length) ==> err == NoError
      ensures Flat(frames) == [] && samples.Length > 0 ==> err != NoError
    {
      hide InStep, Stream, Opened;
      samplesRead := 0;
      if frameBufferPos < |frameBuffer| {
        samplesRead := Drain(samples);
        if samplesRead >= samples.Length { return samplesRead, NoError; }
        ghost var pending := Pending();
        frameBuffer, frameBufferPos := [], 0;
        assert Pending() == pending;
      }
      FlatEmpty(frames);
      StreamEmpty(Flat(frames), consumed);
      samplesRead, err := Fill(samples, samplesRead, parses, reopens, consumed - samplesRead);
    }

    /** The parse loop of Read, from `from` samples on. */
    method Fill(samples: array<int>, from: nat, parses: nat, reopens: bool, ghost start: nat)
      returns (samplesRead: nat, err: Error)
      requires Valid() && from <= samples.Length && frameBufferPos == |frameBuffer| && consumed == start + from
      requires samples[..from] == Stream(Flat(frames), start, from)
      modifies this, samples
      ensures Valid() && samplesRead <= samples.Length && consumed == start + samplesRead
      ensures samples[..samplesRead] == Stream(Flat(frames), start, samplesRead)
      ensures err == NoError <==> samplesRead == samples.Length
      ensures FirstFull(frames, 0) < |frames| && reopens && parses >= Enough(frames, samples.Length) ==> err == NoError
    {
      hide InStep, Stream, Flat, OnCourse, Opened;
      samplesRead, err := from, NoError;
      var used := 0;
      OnCourseFirst(frames, next, samplesRead);
      while samplesRead < samples.Length
        invariant Valid() && from <= samplesRead <= samples.Length && used <= parses && consumed == start + samplesRead
        invariant samplesRead < samples.Length ==> frameBufferPos == |frameBuffer|
        invariant samples[..samplesRead] == Stream(Flat(frames), start, samplesRead)
        invariant OnCourse(frames, next, used, samplesRead)
        decreases parses - used
      {
        if FirstFull(frames, 0) < |frames| { OnCourseEnough(frames, next, used, samplesRead, samples.Length); }
        if used == parses { return samplesRead, ParseError; }
        if next == |file| {
          if !reopens { return samplesRead, ReopenError; }
          OnCourseSkip(frames, next, used, samplesRead);
          Reopen();
        } else {
          samplesRead := ParseFrame(samples, samplesRead, start, used);
        }
        used := used + 1;
      }
    }

    method Reopen()
      requires Valid() && next == |frames| && frameBufferPos == |frameBuffer|
      modifies this
      ensures Valid() && next == 0 && frameBufferPos == |frameBuffer| && consumed == old(consumed)
    {
      hide InStep, Flat, Opened;
      EndOfFile(frames);
      assert frameBuffer[frameBufferPos..] == [];
      assert Pending() == [];
      StartOver(Flat(frames), consumed);
      next := 0;
      frameBuffer, frameBufferPos := [], 0;
      assert Pending() == [] + Flat(frames) == Flat(frames);
    }

    method ParseFrame(samples: array<int>, at: nat, ghost start: nat, ghost used: nat) returns (samplesRead: nat)
      requires Valid() && at < samples.Length && frameBufferPos == |frameBuffer| && next < |frames|
      requires consumed == start + at && samples[..at] == Stream(Flat(frames), start, at)
      requires OnCourse(frames, next, used, at)
      modifies this, samples
      ensures Valid() && at <= samplesRead <= samples.Length && consumed == start + samplesRead
      ensures samplesRead < samples.Length ==> frameBufferPos == |frameBuffer|
      ensures samples[..samplesRead] == Stream(Flat(frames), start, samplesRead)
      ensures OnCourse(frames, next, used + 1, samplesRead)
    {
      hide InStep, Stream, Flat, OnCourse, Opened;
      ghost var k := next;
      ghost var done := samples[..at];
      var toCopy := Deliver(samples, at);
      samplesRead := at + toCopy;
      StreamSplits(Flat(frames), start, at, toCopy);
      assert samples[..samplesRead] == done + samples[at..samplesRead];
      if toCopy > 0 { OnCourseTake(frames, k, used, at, toCopy); } else { OnCourseSkip(frames, k, used, at); }
    }
  }

  method Copy(dst: array<int>, at: nat, src: seq<int>)
    requires at + |src| <= dst.Length
    modifies dst
    ensures dst[..at] == old(dst[..at]) && dst[at..at + |src|] == src
  {
    forall i | 0 <= i < |src| { dst[at + i] := src[i]; }
  }

  lemma StreamEmpty(flat: seq<int>, start: nat)
    ensures Stream(flat, start, 0) == []
  {
  }

  // ---------------------------------------------------------------- which sample of the file is where

  /** How many samples the first n frames hold. */
  function Offset(frames: seq<seq<int>>, n: nat): nat
    requires n <= |frames|
  {
    if n == 0 then 0 else |frames[0]| + Offset(frames[1..], n - 1)
  }

  lemma {:induction false} FlatIndex(frames: seq<seq<int>>, n: nat, k: nat)
    requires n < |frames| && k < |frames[n]|
    ensures Offset(frames, n) + k < |Flat(frames)| && Flat(frames)[Offset(frames, n) + k] == frames[n][k]
    decreases n
  {
    if n == 0 {
    } else {
      FlatIndex(frames[1..], n - 1, k);
    }
  }

  /**
   The decoded file holds sample i of channel ch of frame n, converted, at that place after the frames before it, each
   of which holds its block size times the channels.
   */
  lemma FileSample(file: seq<Frame>, channels: nat, bitDepth: nat, n: nat, i: nat, ch: nat)
    requires AllWellFormed(file, channels) && n < |file| && i < file[n].blockSize && ch < channels
    ensures forall m :: 0 <= m < |file| ==> |DecodedFile(file, channels, bitDepth)[m]| == file[m].blockSize * channels
    ensures var frames := DecodedFile(file, channels, bitDepth); var k := Offset(frames, n) + (i * channels + ch);
      k < |Flat(frames)| && Flat(frames)[k] == Convert(bitDepth, file[n].subframes[ch][i])
  {
    var frames := DecodedFile(file, channels, bitDepth);
    InterleavedAt(file[n], channels, bitDepth, i, ch);
    hide Convert, Interleaved, Flat, Offset;
    FlatIndex(frames, n, i * channels + ch);
  }

  lemma StreamAt(flat: seq<int>, start: nat, len: nat, t: nat, passes: nat, k: nat)
    requires k < |flat| && t < len && start + t == passes * |flat| + k
    ensures |Stream(flat, start, len)| == len && Stream(flat, start, len)[t] == flat[k]
  {
    AtPass(flat, passes, k);
    hide At;
  }

  /** Hence what Read delivers at that point of any pass. */
  lemma StreamSample(file: seq<Frame>, channels: nat, bitDepth: nat, n: nat, i: nat, ch: nat,
                     passes: nat, start: nat, len: nat, t: nat)
    requires AllWellFormed(file, channels) && n < |file| && i < file[n].blockSize && ch < channels && t < len
    requires var frames := DecodedFile(file, channels, bitDepth);
      start + t == passes * |Flat(frames)| + (Offset(frames, n) + (i * channels + ch))
    ensures var s := Stream(Flat(DecodedFile(file, channels, bitDepth)), start, len);
      |s| == len && s[t] == Convert(bitDepth, file[n].subframes[ch][i])
  {
    hide Convert, Interleaved, Flat, Offset, Stream, DecodedFile;
    FileSample(file, channels, bitDepth, n, i, ch);
    var frames := DecodedFile(file, channels, bitDepth);
    StreamAt(Flat(frames), start, len, t, passes, Offset(frames, n) + (i * channels + ch));
  }

  // ---------------------------------------------------------------- any sequence of read sizes

  function Total(sizes: seq<nat>): nat { if sizes == [] then 0 else sizes[0] + Total(sizes[1..]) }

  /**
   Re-chunking is lossless: however the reads are sized and whichever of them fails, together they are one stretch of
   the endless stream, all of it unless a read fails.
   */
  method ReadAll(src: FLACSource, sizes: seq<nat>, parses: seq<nat>, reopens: bool)
    returns (outputs: seq<int>, err: Error)
    requires src.Valid() && |parses| == |sizes|
    modifies src
    ensures src.Valid() && outputs == Stream(Flat(src.frames), old(src.consumed), |outputs|)
    ensures |outputs| <= Total(sizes) && (err == NoError ==> |outputs| == Total(sizes))
    ensures
      (Flat(src.frames) != [] && reopens && forall i :: 0 <= i < |sizes| ==> parses[i] >= Enough(src.frames, sizes[i]))
      ==> err == NoError
  {
    hide FLACSource.Valid, Stream, Flat, Enough;
    outputs, err := [], NoError;
    ghost var start := src.consumed;
    StreamEmpty(Flat(src.frames), start);
    for i := 0 to |sizes|
      invariant src.Valid() && err == NoError
      invariant outputs == Stream(Flat(src.frames), start, |outputs|) && src.consumed == start + |outputs|
      invariant |outputs| + Total(sizes[i..]) == Total(sizes)
    {
      assert sizes[i..][0] == sizes[i] && sizes[i..][1..] == sizes[i + 1..];
      var samples := new int[sizes[i]];
      var n;
      n, err := src.Read(samples, parses[i], reopens);
      StreamSplits(Flat(src.frames), start, |outputs|, n);
      outputs := outputs + samples[..n];
      if err != NoError { return; }
    }
  }

  /** And a whole number of passes is the file itself, over and over. */
  lemma OnePass(flat: seq<int>, passes: nat)
    ensures Stream(flat, passes * |flat|, |flat|) == flat
  {
    hide At;
    var s := Stream(flat, passes * |flat|, |flat|);
    forall i | 0 <= i < |flat| ensures s[i] == flat[i] { AtPass(flat, passes, i); }
  }

  lemma AtPass(flat: seq<int>, passes: nat, i: nat)
    requires i < |flat|
    ensures At(flat, passes * |flat| + i) == flat[i]
  {
    Remainder(passes * |flat| + i, passes, i, |flat|);
  }
}
