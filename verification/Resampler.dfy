/** The linear resampler of pkg/audio/resample.go over the reals. */
module Resamplers {
  import opened Numbers

  /** Where the k-th output frame of a chunk reads, in input frames. */
  function Pos(start: real, ratio: real, k: nat): real { if k == 0 then start else Pos(start, ratio, k - 1) + ratio }

  /** How many frames a chunk yields: until the output is full or the right-hand neighbour is missing. */
  function Count(pos: real, ratio: real, inputFrames: int, outputFrames: nat): (n: nat)
    requires pos >= 0.0 && ratio > 0.0
    ensures n <= outputFrames
    decreases outputFrames
  {
    if outputFrames == 0 || pos.Floor >= inputFrames - 1 then 0
    else 1 + Count(pos + ratio, ratio, inputFrames, outputFrames - 1)
  }

  lemma {:induction false} PosShift(start: real, ratio: real, k: nat)
    ensures Pos(start + ratio, ratio, k) == Pos(start, ratio, k + 1)
  {
    if k == 0 {
    } else {
      PosShift(start, ratio, k - 1);
    }
  }

  /** Every yielded frame has both neighbours in the chunk, and the count is the largest with that property. */
  lemma {:induction false} CountExact(pos: real, ratio: real, inputFrames: int, outputFrames: nat)
    requires pos >= 0.0 && ratio > 0.0
    ensures var n := Count(pos, ratio, inputFrames, outputFrames);
      && (forall k :: 0 <= k < n ==> Pos(pos, ratio, k).Floor < inputFrames - 1)
      && (n == outputFrames || Pos(pos, ratio, n).Floor >= inputFrames - 1)
    decreases outputFrames
  {
    if outputFrames > 0 && pos.Floor < inputFrames - 1 {
      CountExact(pos + ratio, ratio, inputFrames, outputFrames - 1);
      var n := Count(pos, ratio, inputFrames, outputFrames);
      PosShift(pos, ratio, n - 1);
      forall k | 0 <= k < n ensures Pos(pos, ratio, k).Floor < inputFrames - 1 {
        if k > 0 { PosShift(pos, ratio, k - 1); }
      }
    }
  }

  function Mix(x: real, y: real, f: real): real { x * (1.0 - f) + y * f }

  /** The interpolated sample, truncated to an integer. */
  function Lerp(a: int, b: int, frac: real): int { Trunc(Mix(a as real, b as real, frac)) }

  /** Interpolation never overshoots: the output lies between its two neighbours, truncation included. */
  lemma LerpBetween(a: int, b: int, frac: real)
    requires 0.0 <= frac < 1.0
    ensures Min(a, b) <= Lerp(a, b, frac) <= if a <= b then b else a
    ensures frac == 0.0 ==> Lerp(a, b, frac) == a
  {
    hide Trunc, Mix;
    MixBetween(a as real, b as real, frac);
    var v := Mix(a as real, b as real, frac);
    TruncBetween(v, Min(a, b), if a <= b then b else a);
    if frac == 0.0 { TruncBetween(v, a, a); }
  }

  /** Interpolation is exact but for the truncation: the output is a + (b - a)*f, cut towards zero, for every f. */
  lemma LerpExact(a: int, b: int, f: real)
    ensures var v := a as real + (b - a) as real * f;
      && (v >= 0.0 ==> Lerp(a, b, f) as real <= v < Lerp(a, b, f) as real + 1.0)
      && (v <= 0.0 ==> Lerp(a, b, f) as real - 1.0 < v <= Lerp(a, b, f) as real)
  {
    MixIs(a as real, b as real, f);
  }

  lemma MixIs(x: real, y: real, f: real)
    ensures Mix(x, y, f) == x + (y - x) * f
  {
  }

  lemma MixBetween(x: real, y: real, f: real)
    requires 0.0 <= f < 1.0
    ensures if x <= y then x <= Mix(x, y, f) <= y else y <= Mix(x, y, f) <= x
    ensures f == 0.0 ==> Mix(x, y, f) == x
  {
    var d := y - x;
    assert Mix(x, y, f) == x + d * f;
    if d >= 0.0 {
      Shrink(d, f);
    } else {
      Shrink(-d, f);
      assert (-d) * f == -(d * f);
    }
  }

  lemma TruncBetween(v: real, lo: int, hi: int)
    requires lo as real <= v <= hi as real
    ensures lo <= Trunc(v) <= hi
  {
  }

  lemma Shrink(d: real, f: real)
    requires d >= 0.0 && 0.0 <= f < 1.0
    ensures 0.0 <= d * f <= d
  {
    assert d * (1.0 - f) >= 0.0;
  }

  lemma FrameFits(k: nat, len: nat, channels: nat)
    requires channels > 0 && k < len / channels
    ensures (k + 1) * channels == k * channels + channels <= len
  {
    DivisionBound(len, channels);
    ScaleUp(k + 1, len / channels, channels);
  }

  /** Frame number i of an interleaved chunk. */
  function FrameOf(s: seq<int>, channels: nat, i: nat): (r: seq<int>)
    requires channels > 0 && i < |s| / channels
    ensures |r| == channels
  {
    FrameFits(i, |s|, channels);
    s[i * channels..i * channels + channels]
  }

  function MixRow(a: seq<int>, b: seq<int>, frac: real): (r: seq<int>)
    requires |a| == |b|
    ensures |r| == |a|
  {
    seq(|a|, c requires 0 <= c < |a| => Lerp(a[c], b[c], frac))
  }

  /** Both neighbours of a position lie in the chunk. */
  predicate Inside(pos: real, inputFrames: int) { pos >= 0.0 && pos.Floor < inputFrames - 1 }

  /** The output frame at a position: its two neighbours, interpolated channel by channel. */
  function Row(input: seq<int>, channels: nat, pos: real): (r: seq<int>)
    requires channels > 0 && Inside(pos, |input| / channels)
    ensures |r| == channels
  {
    var i := pos.Floor;
    MixRow(FrameOf(input, channels, i), FrameOf(input, channels, i + 1), pos - i as real)
  }

  /** Where the two frames of an output frame lie. */
  lemma RowForm(input: seq<int>, channels: nat, pos: real)
    requires channels > 0 && Inside(pos, |input| / channels)
    ensures var left, right := pos.Floor * channels, (pos.Floor + 1) * channels;
      && 0 <= left < left + channels <= right < right + channels <= |input|
      && Row(input, channels, pos) ==
          MixRow(input[left..left + channels], input[right..right + channels], pos - pos.Floor as real)
  {
    hide MixRow;
    FrameFits(pos.Floor, |input|, channels);
    FrameFits(pos.Floor + 1, |input|, channels);
  }

  predicate AllInside(start: real, ratio: real, inputFrames: int, n: nat) {
    forall k :: 0 <= k < n ==> Inside(Pos(start, ratio, k), inputFrames)
  }

  /** The first n output frames of a chunk. */
  function Rows(input: seq<int>, channels: nat, start: real, ratio: real, n: nat): (r: seq<int>)
    requires channels > 0 && AllInside(start, ratio, |input| / channels, n)
    ensures |r| == n * channels
  {
    if n == 0 then [] else Rows(input, channels, start, ratio, n - 1) + Row(input, channels, Pos(start, ratio, n - 1))
  }

  /** Every output sample lies between the samples of its two neighbouring frames, in its own channel. */
  lemma RowBetween(input: seq<int>, channels: nat, pos: real, c: nat)
    requires channels > 0 && Inside(pos, |input| / channels) && c < channels
    ensures var a, b := FrameOf(input, channels, pos.Floor)[c], FrameOf(input, channels, pos.Floor + 1)[c];
      Min(a, b) <= Row(input, channels, pos)[c] <= if a <= b then b else a
  {
    var a, b := FrameOf(input, channels, pos.Floor)[c], FrameOf(input, channels, pos.Floor + 1)[c];
    hide FrameOf;
    LerpBetween(a, b, pos - pos.Floor as real);
  }

  /** The positions a chunk yields are all inside it, and there are no more. */
  lemma Yielded(start: real, ratio: real, inputFrames: int, outputFrames: nat)
    requires start >= 0.0 && ratio > 0.0
    ensures var n := Count(start, ratio, inputFrames, outputFrames);
      && AllInside(start, ratio, inputFrames, n)
      && (n < outputFrames ==> !Inside(Pos(start, ratio, n), inputFrames))
  {
    CountExact(start, ratio, inputFrames, outputFrames);
    forall k: nat ensures Pos(start, ratio, k) >= 0.0 { PosNonnegative(start, ratio, k); }
  }

  lemma RowsNone(input: seq<int>, channels: nat, start: real, ratio: real)
    requires channels > 0
    ensures AllInside(start, ratio, |input| / channels, 0) && Rows(input, channels, start, ratio, 0) == []
    ensures Pos(start, ratio, 0) == start
  {
  }

  lemma NextFits(k: nat, n: nat, c: nat)
    requires k < n
    ensures (k + 1) * c == k * c + c <= n * c
  {
    ScaleUp(k + 1, n, c);
  }

  lemma RowsMore(input: seq<int>, channels: nat, start: real, ratio: real, n: nat)
    requires channels > 0 && AllInside(start, ratio, |input| / channels, n)
    requires Inside(Pos(start, ratio, n), |input| / channels)
    ensures AllInside(start, ratio, |input| / channels, n + 1)
    ensures Pos(start, ratio, n + 1) == Pos(start, ratio, n) + ratio
    ensures Rows(input, channels, start, ratio, n + 1) ==
      Rows(input, channels, start, ratio, n) + Row(input, channels, Pos(start, ratio, n))
  {
  }

  /** The loop stops where Count says. */
  lemma StopsAt(start: real, ratio: real, inputFrames: int, outputFrames: nat, n: nat)
    requires start >= 0.0 && ratio > 0.0 && AllInside(start, ratio, inputFrames, n) && n <= outputFrames
    requires n == outputFrames || !Inside(Pos(start, ratio, n), inputFrames)
    ensures n == Count(start, ratio, inputFrames, outputFrames)
  {
    Yielded(start, ratio, inputFrames, outputFrames);
  }

  lemma {:induction false} PosNonnegative(start: real, ratio: real, k: nat)
    requires start >= 0.0 && ratio > 0.0
    ensures Pos(start, ratio, k) >= 0.0
  {
    if k == 0 {
    } else {
      PosNonnegative(start, ratio, k - 1);
    }
  }

  /** What one call leaves: its output samples, and the position it carries into the next. */
  datatype Output = Output(samples: seq<int>, position: real)

  /** One chunk: as many frames as its positions and the room allow; the fraction of the position is kept. */
  function Chunk(input: seq<int>, channels: nat, ratio: real, position: real, room: nat): (r: Output)
    requires channels > 0 && ratio > 0.0 && position >= 0.0
    ensures input != [] ==> 0.0 <= r.position < 1.0
    ensures |r.samples| <= room * channels
  {
    if input == [] then Output([], position)
    else
      var n := Count(position, ratio, |input| / channels, room);
      Yielded(position, ratio, |input| / channels, room);
      var end := Pos(position, ratio, n);
      ScaleUp(n, room, channels);
      Output(Rows(input, channels, position, ratio, n), end - end.Floor as real)
  }

  /** The loop's exit, read as the chunk's result. */
  lemma ChunkIs(input: seq<int>, channels: nat, ratio: real, start: real, room: nat, n: nat)
    requires channels > 0 && ratio > 0.0 && start >= 0.0 && input != [] && n <= room
    requires AllInside(start, ratio, |input| / channels, n)
    requires n == room || !Inside(Pos(start, ratio, n), |input| / channels)
    ensures var end := Pos(start, ratio, n);
      Chunk(input, channels, ratio, start, room) ==
        Output(Rows(input, channels, start, ratio, n), end - end.Floor as real)
  {
    hide Rows, AllInside, Inside, Count;
    StopsAt(start, ratio, |input| / channels, room, n);
  }

  class Resampler {
    const channels: nat
    const ratio: real
    var position: real

    ghost predicate Valid()
      reads this
    {
      channels > 0 && ratio > 0.0 && 0.0 <= position < 1.0
    }

    constructor (inputRate: nat, outputRate: nat, channels: nat)
      requires inputRate > 0 && outputRate > 0 && channels > 0
      ensures Valid() && position == 0.0 && this.channels == channels
      ensures ratio * outputRate as real == inputRate as real
    {
      RatioOf(inputRate as real, outputRate as real);
      this.channels := channels;
      ratio := inputRate as real / outputRate as real;
      position := 0.0;
    }

    method Resample(input: array<int>, output: array<int>) returns (n: nat)
      requires Valid() && input != output
      modifies this, output
      ensures Valid() && n <= output.Length
      ensures forall j :: n <= j < output.Length ==> output[j] == old(output[j])
      ensures Output(output[..n], position) ==
        Chunk(input[..], channels, ratio, old(position), output.Length / channels)
    {
      if input.Length == 0 { assert output[..0] == []; return 0; }
      var inputFrames := input.Length / channels;
      var outputFrames := output.Length / channels;
      ghost var start, source := position, input[..];
      DivisionBound(output.Length, channels);
      var outIdx := Convert(input, output, inputFrames, outputFrames);
      ChunkIs(source, channels, ratio, start, outputFrames, outIdx);
      hide Rows, AllInside, Pos, Chunk;
      position := position - position.Floor as real;
      n := outIdx * channels;
    }

    /** The frame loop. */
    method Convert(input: array<int>, output: array<int>, inputFrames: nat, outputFrames: nat) returns (outIdx: nat)
      requires channels > 0 && ratio > 0.0 && position >= 0.0 && input != output
      requires inputFrames == input.Length / channels && outputFrames * channels <= output.Length
      modifies this`position, output
      ensures outIdx <= outputFrames && 0 <= outIdx * channels <= output.Length
      ensures AllInside(old(position), ratio, input.Length / channels, outIdx)
      ensures position == Pos(old(position), ratio, outIdx) >= 0.0
      ensures outIdx == outputFrames || !Inside(position, input.Length / channels)
      ensures output[..outIdx * channels] == Rows(input[..], channels, old(position), ratio, outIdx)
      ensures forall j :: outIdx * channels <= j < output.Length ==> output[j] == old(output[j])
    {
      ghost var start, source := position, input[..];
      RowsNone(source, channels, start, ratio);
      hide Row, Rows, AllInside, Pos;
      outIdx := 0;
      var n := 0;
      while outIdx < outputFrames
        invariant outIdx <= outputFrames && n == outIdx * channels <= output.Length
        invariant position == Pos(start, ratio, outIdx) >= 0.0 && AllInside(start, ratio, inputFrames, outIdx)
        invariant output[..n] == Rows(source, channels, start, ratio, outIdx)
        invariant forall j :: n <= j < output.Length ==> output[j] == old(output[j])
        decreases outputFrames - outIdx
      {
        var inputIdx := position.Floor;
        if inputIdx >= inputFrames - 1 { break; }
        NextFits(outIdx, outputFrames, channels);
        RowsMore(source, channels, start, ratio, outIdx);
        PutFrame(input, output, n);
        outIdx := outIdx + 1;
        n := n + channels;
        position := position + ratio;
      }
    }

    /** The next output frame, after the `base` samples written so far. */
    method PutFrame(input: array<int>, output: array<int>, base: nat)
      requires channels > 0 && input != output && base + channels <= output.Length
      requires Inside(position, input.Length / channels)
      modifies output
      ensures output[..base + channels] == old(output[..base]) + Row(input[..], channels, position)
      ensures forall j :: base + channels <= j < output.Length ==> output[j] == old(output[j])
    {
      hide Row, Inside;
      ghost var done := output[..base];
      WriteFrame(input, output, base);
      assert output[..base] == done;
      assert output[..base + channels] == output[..base] + output[base..base + channels];
    }

    /** One output frame: the channel loop. */
    method WriteFrame(input: array<int>, output: array<int>, base: nat)
      requires channels > 0 && input != output && base + channels <= output.Length
      requires Inside(position, input.Length / channels)
      modifies output
      ensures output[base..base + channels] == Row(input[..], channels, position)
      ensures forall j :: 0 <= j < output.Length && !(base <= j < base + channels) ==> output[j] == old(output[j])
    {
      var inputIdx := position.Floor;
      var frac := position - inputIdx as real;
      RowForm(input[..], channels, position);
      hide Row, Inside, MixRow;
      MixInto(input, output, base, inputIdx * channels, (inputIdx + 1) * channels, channels, frac);
    }

    method OutputSamplesNeeded(inputSamples: nat) returns (n: int)
      requires Valid()
      ensures n == Needed(inputSamples, channels, ratio)
    {
      var inputFrames := inputSamples / channels;
      var outputFrames := Trunc(inputFrames as real / ratio);
      n := outputFrames * channels;
    }
  }

  method MixInto(input: array<int>, output: array<int>, base: nat, left: nat, right: nat, channels: nat, frac: real)
    requires input != output && base + channels <= output.Length
    requires left + channels <= input.Length && right + channels <= input.Length
    modifies output
    ensures output[base..base + channels] == MixRow(input[left..left + channels], input[right..right + channels], frac)
    ensures forall j :: 0 <= j < output.Length && !(base <= j < base + channels) ==> output[j] == old(output[j])
  {
    ghost var want := MixRow(input[left..left + channels], input[right..right + channels], frac);
    hide Trunc, Mix;
    for ch := 0 to channels
      invariant output[base..base + ch] == want[..ch]
      invariant forall j :: 0 <= j < output.Length && !(base <= j < base + ch) ==> output[j] == old(output[j])
    {
      var sample1 := input[left + ch];
      var sample2 := input[right + ch];
      output[base + ch] := Trunc(Mix(sample1 as real, sample2 as real, frac));
      assert output[base + ch] == want[ch];
      assert output[base..base + (ch + 1)] == output[base..base + ch] + [output[base + ch]];
      assert want[..ch + 1] == want[..ch] + [want[ch]];
    }
  }

  function Needed(inputSamples: nat, channels: nat, ratio: real): int
    requires channels > 0 && ratio != 0.0
  {
    Trunc((inputSamples / channels) as real / ratio) * channels
  }

  lemma RatioOf(x: real, y: real)
    requires x > 0.0 && y > 0.0
    ensures x / y > 0.0 && (x / y) * y == x
  {
    var q := x / y;
    assert q * y == x;
    if q <= 0.0 { NotPositive(q, y); }
  }

  lemma NotPositive(q: real, y: real)
    requires q <= 0.0 && y > 0.0
    ensures q * y <= 0.0
  {
  }

  /** The estimate is the whole frames in the input's length over the ratio. */
  lemma NeededIs(inputSamples: nat, channels: nat, ratio: real) returns (k: nat)
    requires channels > 0 && ratio > 0.0
    ensures Needed(inputSamples, channels, ratio) == k * channels
    ensures k as real <= (inputSamples / channels) as real / ratio < k as real + 1.0
  {
    var frames := (inputSamples / channels) as real;
    QuotientNonnegative(frames, ratio);
    k := Trunc(frames / ratio);
  }

  lemma QuotientNonnegative(x: real, r: real)
    requires x >= 0.0 && r > 0.0
    ensures x / r >= 0.0
  {
    var q := x / r;
    assert q * r == x;
    if q < 0.0 { NegativeTimes(q, r); }
  }

  lemma NegativeTimes(q: real, r: real)
    requires q < 0.0 && r > 0.0
    ensures q * r < 0.0
  {
  }

  // ---------------------------------------------------------------- integer ratios

  lemma {:induction false} PosInteger(m: nat, start: nat, k: nat)
    ensures Pos(start as real, m as real, k) == (start + k * m) as real
  {
    if k == 0 {
    } else {
      PosInteger(m, start, k - 1);
    }
  }

  /** Frames k*m for k below n: plain decimation. */
  function Decimate(s: seq<int>, channels: nat, m: nat, n: nat): (r: seq<int>)
    requires channels > 0 && m > 0 && n * m <= |s| / channels
    ensures |r| == n * channels
  {
    if n == 0 then []
    else
      assert n * m == (n - 1) * m + m;
      Decimate(s, channels, m, n - 1) + FrameOf(s, channels, (n - 1) * m)
  }

  /**
   How many frames an integer ratio m yields from m*L frames into room for L: all L exactly when m >= 2. At ratio 1
   the last frame has no right-hand neighbour and is dropped.
   */
  lemma CountInteger(m: nat, L: nat)
    requires m > 0
    ensures Count(0.0, m as real, m * L, L) == if m >= 2 || L == 0 then L else L - 1
  {
    CountFrom(m, L, 0);
  }

  lemma {:induction false} CountFrom(m: nat, L: nat, k: nat)
    requires m > 0 && k <= L
    ensures Count((k * m) as real, m as real, m * L, L - k) == if m >= 2 || k == L then L - k else L - k - 1
    decreases L - k
  {
    if k < L {
      assert (k + 1) * m == k * m + m;
      ScaleUp(k + 1, L, m);
      assert L * m == m * L;
      assert (k * m) as real + m as real == ((k + 1) * m) as real;
      if m >= 2 || k + 1 < L {
        if m == 1 { assert k * m == k && m * L == L; }
        CountFrom(m, L, k + 1);
      } else {
        assert k * m == k && m * L == L;
      }
    }
  }

  /** One chunk of m*L frames, m >= 2, from position 0: exactly L frames, decimated, and the position is 0 again. */
  lemma {:induction false} RowsDecimate(input: seq<int>, channels: nat, m: nat, L: nat, n: nat)
    requires channels > 0 && m >= 2 && |input| / channels == m * L && n <= L
    ensures n * m <= |input| / channels
    ensures AllInside(0.0, m as real, |input| / channels, n)
    ensures Rows(input, channels, 0.0, m as real, n) == Decimate(input, channels, m, n)
  {
    WithinChunk(m, L, n);
    if n == 0 {
    } else {
      RowsDecimate(input, channels, m, L, n - 1);
      PosInteger(m, 0, n - 1);
      hide FrameOf, Row, Pos;
      RowAtFrame(input, channels, (n - 1) * m);
    }
  }

  lemma WithinChunk(m: nat, L: nat, n: nat)
    requires m >= 2 && n <= L
    ensures n * m <= m * L
    ensures n > 0 ==> n * m == (n - 1) * m + m && (n - 1) * m < m * L - 1
  {
    ScaleUp(n, L, m);
    assert L * m == m * L;
  }

  /** At a whole position interpolation copies the frame. */
  lemma RowAtFrame(input: seq<int>, channels: nat, i: nat)
    requires channels > 0 && i < |input| / channels - 1
    ensures Row(input, channels, i as real) == FrameOf(input, channels, i)
  {
    var a, b := FrameOf(input, channels, i), FrameOf(input, channels, i + 1);
    var r := Row(input, channels, i as real);
    hide FrameOf;
    assert (i as real).Floor == i;
    forall c | 0 <= c < channels ensures r[c] == a[c] { LerpBetween(a[c], b[c], 0.0); }
    assert r == a;
  }

  /**
   A chunk of m*L frames at an integer ratio m >= 2 yields exactly L frames, decimated, and the position is 0 again.
   */
  lemma ChunkDecimates(input: seq<int>, channels: nat, m: nat, L: nat)
    requires channels > 0 && m >= 2 && |input| == m * L * channels
    ensures Needed(|input|, channels, m as real) == L * channels
    ensures |input| / channels == m * L && L * m <= |input| / channels
    ensures Chunk(input, channels, m as real, 0.0, L) == Output(Decimate(input, channels, m, L), 0.0)
  {
    ExactDivision(m * L, channels);
    RealQuotient(m, L);
    RowsDecimate(input, channels, m, L, L);
    if input == [] {
      NoFrames(m, L, channels);
    } else {
      CountInteger(m, L);
      PosInteger(m, 0, L);
    }
  }

  lemma NoFrames(m: nat, L: nat, channels: nat)
    requires m > 0 && channels > 0 && m * L * channels == 0
    ensures L == 0
  {
    if L > 0 {
      ScaleUp(1, L, m);
      assert L * m == m * L;
      ScaleUp(1, m * L, channels);
    }
  }

  lemma ExactDivision(a: nat, b: nat)
    requires b > 0
    ensures a * b / b == a
  {
    DivUnique(a * b, a, 0, b);
  }

  lemma RealQuotient(m: nat, L: nat)
    requires m > 0
    ensures Trunc((m * L) as real / m as real) == L
  {
    var q := (m * L) as real / m as real;
    assert q * m as real == (m * L) as real == L as real * m as real;
    assert (q - L as real) * m as real == 0.0;
    assert q == L as real;
  }

  lemma DecimateMore(s: seq<int>, channels: nat, m: nat, n: nat)
    requires channels > 0 && m > 0 && 0 < n && n * m <= |s| / channels
    ensures (n - 1) * m + m == n * m
    ensures Decimate(s, channels, m, n) == Decimate(s, channels, m, n - 1) + FrameOf(s, channels, (n - 1) * m)
  {
    hide FrameOf;
    assert n * m == (n - 1) * m + m;
  }

  lemma DecimateShift(a: seq<int>, b: seq<int>, channels: nat, m: nat, L: nat, n: nat)
    requires channels > 0 && m > 0 && 0 < n && |a| == m * L * channels && n * m <= |b| / channels
    ensures (n - 1) * m <= |b| / channels && (L + n) * m <= |a + b| / channels && (L + n - 1) * m <= |a + b| / channels
    ensures (n - 1) * m < |b| / channels
    ensures Decimate(b, channels, m, n) == Decimate(b, channels, m, n - 1) + FrameOf(b, channels, (n - 1) * m)
    ensures Decimate(a + b, channels, m, L + n) ==
      Decimate(a + b, channels, m, L + n - 1) + FrameOf(b, channels, (n - 1) * m)
  {
    hide Decimate, FrameOf;
    FramesAdd(a, b, channels, m * L);
    assert (L + n) * m == m * L + n * m;
    assert n * m == (n - 1) * m + m;
    assert (L + n - 1) * m == m * L + (n - 1) * m;
    FrameShift(a, b, channels, m * L, (n - 1) * m);
    DecimateMore(b, channels, m, n);
    DecimateMore(a + b, channels, m, L + n);
  }

  /** Decimating chunk by chunk is decimating the whole. */
  lemma {:induction false} DecimateConcat(a: seq<int>, b: seq<int>, channels: nat, m: nat, L: nat, n: nat)
    requires channels > 0 && m > 0 && |a| == m * L * channels && n * m <= |b| / channels
    ensures L * m <= |a| / channels && (L + n) * m <= |a + b| / channels
    ensures Decimate(a, channels, m, L) + Decimate(b, channels, m, n) == Decimate(a + b, channels, m, L + n)
    decreases n
  {
    ExactDivision(m * L, channels);
    FramesAdd(a, b, channels, m * L);
    assert (L + n) * m == L * m + n * m;
    if n == 0 {
      DecimatePrefix(a, b, channels, m, L);
    } else {
      hide Decimate, FrameOf;
      DecimateShift(a, b, channels, m, L, n);
      DecimateConcat(a, b, channels, m, L, n - 1);
    }
  }

  lemma FramesAdd(a: seq<int>, b: seq<int>, channels: nat, f: nat)
    requires channels > 0 && |a| == f * channels
    ensures |a + b| / channels == f + |b| / channels
  {
    var q, r := |b| / channels, |b| % channels;
    assert |b| == channels * q + r;
    Distribute(f, q, channels);
    DivUnique(|a + b|, f + q, r, channels);
  }

  lemma Distribute(f: nat, q: nat, c: nat)
    ensures (f + q) * c == f * c + c * q
  {
  }

  lemma FrameShift(a: seq<int>, b: seq<int>, channels: nat, f: nat, i: nat)
    requires channels > 0 && |a| == f * channels && i < |b| / channels
    ensures f + i < |a + b| / channels && FrameOf(a + b, channels, f + i) == FrameOf(b, channels, i)
  {
    FramesAdd(a, b, channels, f);
    FrameFits(i, |b|, channels);
    FrameFits(f + i, |a + b|, channels);
    assert (f + i) * channels == f * channels + i * channels;
    SliceRight(a, b, i * channels, i * channels + channels);
  }

  lemma SliceRight(a: seq<int>, b: seq<int>, i: nat, j: nat)
    requires i <= j <= |b|
    ensures (a + b)[|a| + i..|a| + j] == b[i..j]
  {
  }

  lemma FramePrefix(a: seq<int>, b: seq<int>, channels: nat, i: nat)
    requires channels > 0 && i < |a| / channels <= |a + b| / channels
    ensures FrameOf(a, channels, i) == FrameOf(a + b, channels, i)
  {
    FrameFits(i, |a|, channels);
  }

  lemma {:induction false} DecimatePrefix(a: seq<int>, b: seq<int>, channels: nat, m: nat, n: nat)
    requires channels > 0 && m > 0 && n * m <= |a| / channels <= |a + b| / channels
    ensures Decimate(a, channels, m, n) == Decimate(a + b, channels, m, n)
  {
    if n == 0 {
    } else {
      assert n * m == (n - 1) * m + m;
      DecimatePrefix(a, b, channels, m, n - 1);
      DecimateMore(a, channels, m, n);
      DecimateMore(a + b, channels, m, n);
      hide Decimate, FrameOf;
      FramePrefix(a, b, channels, (n - 1) * m);
    }
  }

  function Concat(chunks: seq<seq<int>>): seq<int> {
    if chunks == [] then [] else Concat(chunks[..|chunks| - 1]) + chunks[|chunks| - 1]
  }

  /** A run of calls, each with room for L frames, the position carried from chunk to chunk. */
  function Run(chunks: seq<seq<int>>, channels: nat, ratio: real, position: real, L: nat): (r: Output)
    requires channels > 0 && ratio > 0.0 && position >= 0.0
    ensures r.position >= 0.0
    decreases |chunks|
  {
    if chunks == [] then Output([], position)
    else
      var before := Run(chunks[..|chunks| - 1], channels, ratio, position, L);
      var last := Chunk(chunks[|chunks| - 1], channels, ratio, before.position, L);
      Output(before.samples + last.samples, last.position)
  }

  /** L frames from each of k chunks. */
  function Total(k: nat, L: nat): nat
  {
    if k == 0 then 0 else Total(k - 1, L) + L
  }

  lemma RunMore(front: seq<seq<int>>, last: seq<int>, channels: nat, ratio: real, position: real, L: nat)
    requires channels > 0 && ratio > 0.0 && position >= 0.0
    ensures Concat(front + [last]) == Concat(front) + last
    ensures var before := Run(front, channels, ratio, position, L);
      var next := Chunk(last, channels, ratio, before.position, L);
      Run(front + [last], channels, ratio, position, L) == Output(before.samples + next.samples, next.position)
  {
    hide Chunk;
    assert (front + [last])[..|front|] == front;
  }

  lemma Lengths(m: nat, n: nat, L: nat, channels: nat)
    ensures m * (n + L) * channels == m * n * channels + m * L * channels
  {
    assert m * (n + L) == m * n + m * L;
  }

  /** n frames yielded so far; the next chunk is decimated onto them. */
  lemma DecimateNext(a: seq<int>, b: seq<int>, channels: nat, m: nat, n: nat, L: nat)
    requires channels > 0 && m > 0 && |a| == m * n * channels && |b| == m * L * channels
    ensures n * m <= |a| / channels && L * m <= |b| / channels && (n + L) * m <= |a + b| / channels
    ensures |a + b| == m * (n + L) * channels
    ensures Decimate(a, channels, m, n) + Decimate(b, channels, m, L) == Decimate(a + b, channels, m, n + L)
  {
    Lengths(m, n, L, channels);
    ExactDivision(m * L, channels);
    assert L * m == m * L;
    hide Decimate;
    DecimateConcat(a, b, channels, m, n, L);
  }

  /** A whole run at an integer ratio m >= 2 in chunks of m*L frames is decimation by m of the whole input. */
  lemma {:induction false} RunDecimates(chunks: seq<seq<int>>, channels: nat, m: nat, L: nat)
    requires channels > 0 && m >= 2 && forall i :: 0 <= i < |chunks| ==> |chunks[i]| == m * L * channels
    ensures var n := Total(|chunks|, L);
      |Concat(chunks)| == m * n * channels && n * m <= |Concat(chunks)| / channels
      && Run(chunks, channels, m as real, 0.0, L) == Output(Decimate(Concat(chunks), channels, m, n), 0.0)
    decreases |chunks|
  {
    if chunks == [] {
    } else {
      var front, last := chunks[..|chunks| - 1], chunks[|chunks| - 1];
      RunDecimates(front, channels, m, L);
      ChunkDecimates(last, channels, m, L);
      RunMore(front, last, channels, m as real, 0.0, L);
      assert front + [last] == chunks;
      RunStep(Concat(front), last, Concat(chunks), channels, m, L, |chunks|);
      hide Decimate, Run, Chunk, Concat, Total;
    }
  }

  lemma RunStep(a: seq<int>, b: seq<int>, all: seq<int>, channels: nat, m: nat, L: nat, k: nat)
    requires channels > 0 && m > 0 && k > 0 && all == a + b
    requires |a| == m * Total(k - 1, L) * channels && |b| == m * L * channels
    ensures var n, n' := Total(k - 1, L), Total(k, L);
      && n * m <= |a| / channels && L * m <= |b| / channels && n' * m <= |all| / channels && |all| == m * n' * channels
      && Decimate(a, channels, m, n) + Decimate(b, channels, m, L) == Decimate(all, channels, m, n')
  {
    assert Total(k, L) == Total(k - 1, L) + L;
    hide Total, Decimate;
    DecimateNext(a, b, channels, m, Total(k - 1, L), L);
  }
}
