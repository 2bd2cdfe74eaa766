/** Where each sample of the resampler's output comes from, at any ratio. */
module ResampledSamples {
  import opened Numbers
  import opened Resamplers

  lemma {:induction false} PosIs(start: real, ratio: real, k: nat)
    ensures Pos(start, ratio, k) == start + k as real * ratio
  {
    if k == 0 {
    } else {
      PosIs(start, ratio, k - 1);
      assert k as real * ratio == (k - 1) as real * ratio + ratio;
    }
  }

  /** Channel c of frame i of an interleaved chunk. */
  function SampleAt(s: seq<int>, channels: nat, i: nat, c: nat): int
    requires c < channels && i < |s| / channels
  {
    FrameFits(i, |s|, channels);
    s[i * channels + c]
  }

  /** Channel c of frame k of an interleaved output is y. */
  predicate Holds(s: seq<int>, channels: nat, k: nat, c: nat, y: int) {
    k * channels + c < |s| && s[k * channels + c] == y
  }

  lemma RowSample(input: seq<int>, channels: nat, pos: real, c: nat)
    requires c < channels && Inside(pos, |input| / channels)
    ensures Row(input, channels, pos)[c] == Lerp(
      SampleAt(input, channels, pos.Floor, c), SampleAt(input, channels, pos.Floor + 1, c), pos - pos.Floor as real)
  {
    hide Lerp;
    RowForm(input, channels, pos);
    FrameFits(pos.Floor, |input|, channels);
    FrameFits(pos.Floor + 1, |input|, channels);
  }

  /** Channel c of output frame k is channel c of the row at the k-th position. */
  lemma {:induction false} RowsAt(input: seq<int>, channels: nat, start: real, ratio: real, n: nat, k: nat, c: nat)
    requires c < channels && AllInside(start, ratio, |input| / channels, n) && k < n
    ensures Holds(Rows(input, channels, start, ratio, n), channels, k, c, Row(input, channels, Pos(start, ratio, k))[c])
    decreases n
  {
    hide Row, Pos;
    NextFits(k, n, channels);
    if k == n - 1 {
    } else {
      RowsAt(input, channels, start, ratio, n - 1, k, c);
    }
  }

  /**
   A ramp stays a ramp at any ratio: if channel c of frame i is a + d*i, then channel c of output frame k is the ramp's
   value at start + k*ratio, cut towards zero.
   */
  lemma ResamplesRamp(input: seq<int>, channels: nat, start: real, ratio: real, n: nat, k: nat, c: nat, a: int, d: int)
    requires c < channels && AllInside(start, ratio, |input| / channels, n) && k < n
    requires forall i: nat :: i < |input| / channels ==> SampleAt(input, channels, i, c) == a + d * i
    ensures Holds(Rows(input, channels, start, ratio, n), channels, k, c, Trunc(Ramp(a, d, start + k as real * ratio)))
  {
    hide Rows, Row, Lerp, Trunc, SampleAt, Pos, Ramp;
    RowsAt(input, channels, start, ratio, n, k, c);
    PosIs(start, ratio, k);
    RowOnRamp(input, channels, Pos(start, ratio, k), c, a, d);
  }

  lemma RowOnRamp(input: seq<int>, channels: nat, pos: real, c: nat, a: int, d: int)
    requires c < channels && Inside(pos, |input| / channels)
    requires forall i: nat :: i < |input| / channels ==> SampleAt(input, channels, i, c) == a + d * i
    ensures Row(input, channels, pos)[c] == Trunc(Ramp(a, d, pos))
  {
    hide Row, Lerp, Trunc, SampleAt, Ramp;
    RowSample(input, channels, pos, c);
    var i: nat := pos.Floor;
    LerpOnRamp(a, d, i, pos);
    assert SampleAt(input, channels, i, c) == a + d * i;
    assert SampleAt(input, channels, i + 1, c) == a + d * (i + 1);
  }

  /** The straight line through (0, a) with slope d. */
  function Ramp(a: int, d: int, x: real): real { a as real + d as real * x }

  lemma LerpOnRamp(a: int, d: int, i: int, pos: real)
    ensures Lerp(a + d * i, a + d * (i + 1), pos - i as real) == Trunc(Ramp(a, d, pos))
  {
    hide Trunc;
    var x, y, f := a + d * i, a + d * (i + 1), pos - i as real;
    MixIs(x as real, y as real, f);
    RampMoves(a, d, i, pos, x, y, f);
    assert Mix(x as real, y as real, f) == Ramp(a, d, pos);
  }

  lemma RampMoves(a: int, d: int, i: int, pos: real, x: int, y: int, f: real)
    requires x == a + d * i && y == a + d * (i + 1) && f == pos - i as real
    ensures x as real + (y as real - x as real) * f == Ramp(a, d, pos)
  {
    assert y - x == d;
    assert (d * i) as real == d as real * i as real;
    assert d as real * f == d as real * pos - d as real * i as real;
  }

  /**
   And for a whole chunk: its samples are those rows, and the position it carries on is the next one less the w whole
   frames before it.
   */
  lemma ChunkSamples(input: seq<int>, channels: nat, ratio: real, position: real, room: nat) returns (w: int)
    requires channels > 0 && ratio > 0.0 && position >= 0.0 && input != []
    ensures var n := Count(position, ratio, |input| / channels, room);
      AllInside(position, ratio, |input| / channels, n)
    ensures var r := Chunk(input, channels, ratio, position, room);
      var n := Count(position, ratio, |input| / channels, room);
      && r.samples == Rows(input, channels, position, ratio, n)
      && 0.0 <= r.position < 1.0 && r.position + w as real == position + n as real * ratio
  {
    hide Rows, Count, AllInside, Inside, Pos, Row;
    var n := Count(position, ratio, |input| / channels, room);
    Yielded(position, ratio, |input| / channels, room);
    PosIs(position, ratio, n);
    w := Pos(position, ratio, n).Floor;
    ChunkIs(input, channels, ratio, position, room, n);
  }

  lemma {:induction false} DecimateAt(s: seq<int>, channels: nat, m: nat, n: nat, k: nat, c: nat)
    requires c < channels && m > 0 && n * m <= |s| / channels && k < n
    ensures k * m < |s| / channels
    ensures Holds(Decimate(s, channels, m, n), channels, k, c, SampleAt(s, channels, k * m, c))
    decreases n
  {
    NextFits(k, n, channels);
    NextFits(k, n, m);
    NextFits(n - 1, n, m);
    DecimateMore(s, channels, m, n);
    hide Decimate;
    if k == n - 1 {
      FrameSample(s, channels, k * m, c);
      HoldsLast(Decimate(s, channels, m, n - 1), FrameOf(s, channels, k * m), channels, k, c);
    } else {
      DecimateAt(s, channels, m, n - 1, k, c);
    }
  }

  lemma FrameSample(s: seq<int>, channels: nat, i: nat, c: nat)
    requires c < channels && i < |s| / channels
    ensures FrameOf(s, channels, i)[c] == SampleAt(s, channels, i, c)
  {
    FrameFits(i, |s|, channels);
  }

  lemma HoldsLast(a: seq<int>, b: seq<int>, channels: nat, k: nat, c: nat)
    requires |a| == k * channels && |b| == channels && c < channels
    ensures Holds(a + b, channels, k, c, b[c])
  {
  }
}
