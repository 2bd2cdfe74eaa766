/** The playback ring of pkg/audio/output/malgo.go and the producer that fills it. */
module AudioOutput {
  import opened Numbers
  import opened Rings

  /** The slot after the last of `count` entries from `start` on. */
  function End(start: nat, count: nat, size: nat): (e: nat)
    requires size > 0
    ensures e < size
  {
    (start + count) % size
  }

  class RingBuffer {
    const size: nat
    const buffer: array<int>
    var readPos: nat
    var writePos: nat
    var count: nat

    ghost predicate Valid()
      reads this
    {
      && buffer.Length == size && count <= size
      && (size == 0 ==> readPos == writePos == 0)
      && (size > 0 ==> readPos < size && writePos == End(readPos, count, size))
    }

    /** The queued samples, oldest first. */
    ghost function Contents(): (s: seq<int>)
      requires Valid()
      reads this, buffer
      ensures |s| == count
    {
      Window(buffer[..], readPos, count)
    }

    constructor (capacity: nat)
      ensures Valid() && fresh(buffer) && Contents() == [] && size == capacity
    {
      size := capacity;
      buffer := new int[capacity](_ => 0);
      readPos, writePos, count := 0, 0, 0;
    }

    /** Appends as many leading samples as there is room for. */
    method Write(samples: seq<int>) returns (written: nat)
      requires Valid()
      modifies this, buffer
      ensures Valid() && written == Min(|samples|, size - old(count))
      ensures Contents() == old(Contents()) + samples[..written]
    {
      ghost var before := Contents();
      written := 0;
      var i := 0;
      while i < |samples| && count < size
        invariant Valid() && 0 <= i <= |samples| && written == i && count == old(count) + i
        invariant Contents() == before + samples[..i]
      {
        ghost var done := samples[..i];
        Put(samples[i]);
        assert samples[..i + 1] == done + [samples[i]];
        i := i + 1;
        written := written + 1;
      }
    }

    method Put(x: int)
      requires Valid() && count < size
      modifies this, buffer
      ensures Valid() && count == old(count) + 1 && Contents() == old(Contents()) + [x]
    {
      hide Window, End;
      ghost var store := buffer[..];
      PushAtEnd(store, readPos, count, x);
      AdvanceEnd(readPos, count, size);
      buffer[writePos] := x;
      assert buffer[..] == store[writePos := x];
      writePos := (writePos + 1) % size;
      count := count + 1;
    }

    method Take() returns (x: int)
      requires Valid() && count > 0
      modifies this
      ensures Valid() && count == old(count) - 1 && [x] + Contents() == old(Contents())
    {
      hide Window, End;
      WindowPop(buffer[..], readPos, count);
      AdvanceStart(readPos, count, size);
      x := buffer[readPos];
      readPos := (readPos + 1) % size;
      count := count - 1;
    }

    /** Fills the whole slice: queued samples first, then zeros. */
    method Read(samples: array<int>) returns (read: nat)
      requires Valid() && samples != buffer
      modifies this, samples
      ensures Valid() && read == Min(samples.Length, old(count))
      ensures samples[..read] + Contents() == old(Contents())
      ensures forall k :: read <= k < samples.Length ==> samples[k] == 0
    {
      hide Window;
      read := 0;
      ghost var got: seq<int> := [];
      var i := 0;
      while i < samples.Length && count > 0
        invariant Valid() && 0 <= i <= samples.Length && read == i == |got| && count == old(count) - i
        invariant samples[..i] == got && got + Contents() == old(Contents())
      {
        var x := Take();
        samples[i] := x;
        got := got + [x];
        i := i + 1;
        read := read + 1;
      }
      ZeroFill(samples, read);
    }
  }

  method ZeroFill(samples: array<int>, from: nat)
    requires from <= samples.Length
    modifies samples
    ensures samples[..from] == old(samples[..from])
    ensures forall k :: from <= k < samples.Length ==> samples[k] == 0
  {
    var i := from;
    while i < samples.Length
      invariant from <= i <= samples.Length
      invariant samples[..from] == old(samples[..from])
      invariant forall k :: from <= k < i ==> samples[k] == 0
    {
      samples[i] := 0;
      i := i + 1;
    }
  }

  lemma CountBound(rb: RingBuffer)
    requires rb.Valid()
    ensures rb.count <= rb.size
  {
  }

  lemma PushAtEnd(s: seq<int>, start: nat, count: nat, x: int)
    requires count < |s| && start < |s|
    ensures Window(s[End(start, count, |s|) := x], start, count + 1) == Window(s, start, count) + [x]
  {
    WindowPush(s, start, count, x);
  }

  lemma AdvanceEnd(start: nat, count: nat, n: nat)
    requires start < n && count < n
    ensures (End(start, count, n) + 1) % n == End(start, count + 1, n)
  {
    ModWrap(start + count, n);
    ModWrap((start + count) % n + 1, n);
    ModWrap(start + (count + 1), n);
  }

  lemma AdvanceStart(start: nat, count: nat, n: nat)
    requires start < n && 0 < count <= n
    ensures (start + 1) % n < n && End((start + 1) % n, count - 1, n) == End(start, count, n)
  {
    ModWrap(start + 1, n);
    ModWrap(start + count, n);
    ModWrap((start + 1) % n + (count - 1), n);
  }

  // ---------------------------------------------------------------- any interleaving of writes and reads

  datatype Op = Writes(samples: seq<int>) | Reads(n: nat)

  /** accepted: everything Write took; delivered: everything Read returned, without its zero filler. */
  datatype History = History(contents: seq<int>, accepted: seq<int>, delivered: seq<int>)

  function Apply(size: nat, h: History, op: Op): History
    requires |h.contents| <= size
  {
    match op
    case Writes(xs) =>
      var took := xs[..Min(|xs|, size - |h.contents|)];
      History(h.contents + took, h.accepted + took, h.delivered)
    case Reads(n) =>
      var k := Min(n, |h.contents|);
      History(h.contents[k..], h.accepted, h.delivered + h.contents[..k])
  }

  function ApplyAll(size: nat, h: History, ops: seq<Op>): (r: History)
    requires |h.contents| <= size
    ensures |r.contents| <= size
    decreases |ops|
  {
    if ops == [] then h else ApplyAll(size, Apply(size, h, ops[0]), ops[1..])
  }

  /** First in, first out: what came out, then what is queued, is exactly what went in. */
  lemma {:induction false} Fifo(size: nat, h: History, ops: seq<Op>)
    requires |h.contents| <= size && h.accepted == h.delivered + h.contents
    ensures var r := ApplyAll(size, h, ops);
      r.accepted == r.delivered + r.contents && h.delivered <= r.delivered && h.accepted <= r.accepted
    decreases |ops|
  {
    if ops == [] {
    } else {
      var n := Apply(size, h, ops[0]);
      assert n.accepted == n.delivered + n.contents;
      Fifo(size, n, ops[1..]);
    }
  }

  /** Any interleaving, on the object: what it took and gave are the histories that Fifo speaks of. */
  method Perform(rb: RingBuffer, ops: seq<Op>) returns (ghost accepted: seq<int>, delivered: seq<int>)
    requires rb.Valid()
    modifies rb, rb.buffer
    ensures rb.Valid()
    ensures History(rb.Contents(), accepted, delivered)
         == ApplyAll(rb.size, History(old(rb.Contents()), old(rb.Contents()), []), ops)
    ensures accepted == delivered + rb.Contents()
  {
    hide Window, RingBuffer.Contents, RingBuffer.Valid;
    accepted, delivered := rb.Contents(), [];
    CountBound(rb);
    ghost var result := ApplyAll(rb.size, History(rb.Contents(), accepted, delivered), ops);
    Fifo(rb.size, History(rb.Contents(), accepted, delivered), ops);
    assert ops[0..] == ops;
    for i := 0 to |ops|
      invariant rb.Valid() && rb.count <= rb.size
      invariant ApplyAll(rb.size, History(rb.Contents(), accepted, delivered), ops[i..]) == result
    {
      ApplyNext(rb.size, History(rb.Contents(), accepted, delivered), ops, i);
      accepted, delivered := PerformOne(rb, ops[i], accepted, delivered);
      CountBound(rb);
    }
    assert ops[|ops|..] == [];
  }

  method PerformOne(rb: RingBuffer, op: Op, ghost a: seq<int>, d: seq<int>)
    returns (ghost accepted: seq<int>, delivered: seq<int>)
    requires rb.Valid()
    modifies rb, rb.buffer
    ensures rb.Valid() && |old(rb.Contents())| <= rb.size
    ensures History(rb.Contents(), accepted, delivered) == Apply(rb.size, History(old(rb.Contents()), a, d), op)
  {
    hide Window, RingBuffer.Contents, RingBuffer.Valid;
    CountBound(rb);
    accepted, delivered := a, d;
    match op {
      case Writes(xs) =>
        var n := rb.Write(xs);
        accepted := accepted + xs[..n];
      case Reads(n) =>
        ghost var before := rb.Contents();
        var samples := new int[n](_ => 0);
        var k := rb.Read(samples);
        assert before[..k] == samples[..k] && before[k..] == rb.Contents();
        delivered := delivered + samples[..k];
    }
  }

  lemma ApplyNext(size: nat, h: History, ops: seq<Op>, i: nat)
    requires |h.contents| <= size && i < |ops|
    ensures |Apply(size, h, ops[i]).contents| <= size
    ensures ApplyAll(size, h, ops[i..]) == ApplyAll(size, Apply(size, h, ops[i]), ops[i + 1..])
  {
    assert ops[i..][1..] == ops[i + 1..];
  }

  // ---------------------------------------------------------------- Malgo.Write

  const MAX_STALL: int := 50_000_000  // nanoseconds

  /** Before a pass the audio callback asks for `drain` samples; `now` is the clock during the pass. */
  datatype Pass = Pass(drain: nat, now: int)

  /** Waiting: the passes given so far did not let the call return. */
  datatype Outcome = NotReady | Done | Stalled | Waiting

  datatype Sent = Sent(outcome: Outcome, written: nat)

  /** Each sample in its place, scaled. */
  function ApplyVolume(samples: seq<int>, scale: int -> int): (r: seq<int>)
    ensures |r| == |samples| && forall i :: 0 <= i < |r| ==> r[i] == scale(samples[i])
  {
    seq(|samples|, i requires 0 <= i < |samples| => scale(samples[i]))
  }

  /**
   How a write of `total` samples goes, with `written` done, `count` of `size` queued and progress last made at
   `last`.
   */
  function Passes(size: nat, count: nat, total: nat, written: nat, last: int, passes: seq<Pass>): (r: Sent)
    requires count <= size && written <= total
    ensures written <= r.written <= total
    decreases |passes|
  {
    if written == total then Sent(Done, written)
    else if passes == [] then Sent(Waiting, written)
    else
      var left := count - Min(passes[0].drain, count);
      var n := Min(total - written, size - left);
      if n > 0 then Passes(size, left + n, total, written + n, passes[0].now, passes[1..])
      else if passes[0].now - last > MAX_STALL then Sent(Stalled, written)
      else Passes(size, left, total, written, last, passes[1..])
  }

  lemma PassesStep(size: nat, count: nat, total: nat, written: nat, last: int, passes: seq<Pass>, i: nat)
    requires count <= size && written < total && i < |passes|
    ensures var p := passes[i]; var left := count - Min(p.drain, count); var n := Min(total - written, size - left);
      Passes(size, count, total, written, last, passes[i..]) ==
        if n > 0 then Passes(size, left + n, total, written + n, p.now, passes[i + 1..])
        else if p.now - last > MAX_STALL then Sent(Stalled, written)
        else Passes(size, left, total, written, last, passes[i + 1..])
  {
    assert passes[i..][1..] == passes[i + 1..];
  }

  lemma PassesEnd(size: nat, count: nat, total: nat, written: nat, last: int, passes: seq<Pass>)
    requires count <= size && written <= total && (written == total || passes == [])
    ensures Passes(size, count, total, written, last, passes)
      == Sent(if written < total then Waiting else Done, written)
  {
  }

  /** A drain in every pass: as many passes as samples are enough. */
  lemma {:induction false} DrainingFinishes(size: nat, count: nat, total: nat, written: nat, last: int,
                                            passes: seq<Pass>)
    requires count <= size && written <= total && size > 0
    requires |passes| >= total - written && forall p :: p in passes ==> p.drain > 0
    ensures Passes(size, count, total, written, last, passes) == Sent(Done, total)
    decreases |passes|
  {
    if written < total {
      assert passes[0] in passes;
      var left := count - Min(passes[0].drain, count);
      var n := Min(total - written, size - left);
      DrainingFinishes(size, left + n, total, written + n, passes[0].now, passes[1..]);
    }
  }

  /** When progress was last made before pass j + 1. */
  function Since(passes: seq<Pass>, j: int, last: int): int
    requires -1 <= j < |passes|
  {
    if j == -1 then last else passes[j].now
  }

  ghost predicate StalledAt(passes: seq<Pass>, last: int, j: int, k: int) {
    && -1 <= j < k < |passes| && passes[k].now - Since(passes, j, last) > MAX_STALL
    && forall i :: j < i <= k ==> passes[i].drain == 0
  }

  /** A stall is reported only after more than 50 ms in which the callback took nothing. */
  lemma {:induction false} StallMeansNoDrain(size: nat, count: nat, total: nat, written: nat, last: int,
                                             passes: seq<Pass>)
    requires count <= size && written <= total && size > 0
    requires Passes(size, count, total, written, last, passes).outcome == Stalled
    ensures exists j, k :: StalledAt(passes, last, j, k)
    decreases |passes|
  {
    var left := count - Min(passes[0].drain, count);
    var n := Min(total - written, size - left);
    var rest := passes[1..];
    if n == 0 && passes[0].now - last > MAX_STALL {
      assert StalledAt(passes, last, -1, 0);
    } else if n == 0 {
      StallMeansNoDrain(size, left, total, written, last, rest);
      var j, k :| StalledAt(rest, last, j, k);
      assert StalledAt(passes, last, if j == -1 then -1 else j + 1, k + 1);
    } else {
      StallMeansNoDrain(size, left + n, total, written + n, passes[0].now, rest);
      var j, k :| StalledAt(rest, passes[0].now, j, k);
      assert StalledAt(passes, last, j + 1, k + 1);
    }
  }

  lemma NothingWritten(s: seq<int>, t: seq<int>)
    ensures s + t[..0] == s
  {
  }

  /** A full ring that is not drained: the write waits 50 ms and then, at the first pass after that, reports a stall. */
  lemma {:induction false} UndrainedStalls(size: nat, total: nat, written: nat, last: int, passes: seq<Pass>)
    requires written < total && size > 0 && forall i :: 0 <= i < |passes| ==> passes[i].drain == 0
    ensures var r := Passes(size, size, total, written, last, passes);
      && r.written == written && (r.outcome == Stalled || r.outcome == Waiting)
      && (r.outcome == Stalled <==> exists i :: 0 <= i < |passes| && passes[i].now - last > 50_000_000)
    decreases |passes|
  {
    if passes == [] {
    } else {
      UndrainedStalls(size, total, written, last, passes[1..]);
      var rest := passes[1..];
      assert forall i :: 0 <= i < |rest| ==> passes[i + 1] == rest[i];
      if i :| 0 <= i < |passes| && passes[i].now - last > 50_000_000 {
        if i > 0 { assert rest[i - 1].now - last > 50_000_000; }
      }
    }
  }

  class Malgo {
    const ringBuffer: RingBuffer
    var ready: bool
    ghost var played: seq<int>  // what the device took from the ring

    constructor (capacity: nat)
      ensures ringBuffer.Valid() && fresh(ringBuffer) && fresh(ringBuffer.buffer) && Stream() == [] && !ready
      ensures ringBuffer.size == capacity
    {
      ringBuffer := new RingBuffer(capacity);
      ready := false;
      played := [];
    }

    /** Everything that ever entered the ring: played samples, then queued ones. */
    ghost function Stream(): seq<int>
      requires ringBuffer.Valid()
      reads this, ringBuffer, ringBuffer.buffer
    {
      played + ringBuffer.Contents()
    }

    method DataCallback(n: nat) returns (samples: array<int>)
      requires ringBuffer.Valid()
      modifies this`played, ringBuffer
      ensures ringBuffer.Valid() && fresh(samples) && samples.Length == n
      ensures ringBuffer.count == old(ringBuffer.count) - Min(n, old(ringBuffer.count))
      ensures var k := Min(n, old(ringBuffer.count));
        played == old(played) + samples[..k] && forall j :: k <= j < n ==> samples[j] == 0
      ensures Stream() == old(Stream())
    {
      hide Window, RingBuffer.Contents, RingBuffer.Valid;
      samples := new int[n](_ => 0);
      var read := ringBuffer.Read(samples);
      played := played + samples[..read];
    }

    /** The callback drains, then the producer fills what room there is. */
    method OnePass(volumed: seq<int>, written: nat, drain: nat) returns (n: nat)
      requires ringBuffer.Valid() && written < |volumed|
      modifies this`played, ringBuffer, ringBuffer.buffer
      ensures ringBuffer.Valid() && written + n <= |volumed|
      ensures Stream() == old(Stream()) + volumed[written..written + n]
      ensures var left := old(ringBuffer.count) - Min(drain, old(ringBuffer.count));
        n == Min(|volumed| - written, ringBuffer.size - left) && ringBuffer.count == left + n
    {
      hide Window;
      var _ := DataCallback(drain);
      ghost var stream := Stream();
      n := ringBuffer.Write(volumed[written..]);
      assert Stream() == stream + volumed[written..][..n];
    }

    /**
     Queues all samples unless the ring stalls. Done has appended every volume-scaled sample in order, Stalled and
     Waiting exactly a prefix. Passes says which, and how many.
     */
    method Write(samples: seq<int>, scale: int -> int, start: int, passes: seq<Pass>)
      returns (outcome: Outcome, written: nat)
      requires ringBuffer.Valid()
      modifies this`played, ringBuffer, ringBuffer.buffer
      ensures ringBuffer.Valid() && written <= |samples|
      ensures outcome == NotReady <==> !ready
      ensures outcome == NotReady ==> written == 0
      ensures outcome == Done ==> written == |samples|
      ensures outcome == Stalled ==> written < |samples| && ringBuffer.count == ringBuffer.size
      ensures Stream() == old(Stream()) + ApplyVolume(samples, scale)[..written]
      ensures ready ==>
        Sent(outcome, written) == Passes(ringBuffer.size, old(ringBuffer.count), |samples|, 0, start, passes)
    {
      if !ready {
        NothingWritten(old(Stream()), ApplyVolume(samples, scale));
        return NotReady, 0;
      }
      var volumed := ApplyVolume(samples, scale);
      outcome, written := SendAll(volumed, start, passes);
    }

    /** The pass loop of Write. */
    method SendAll(volumed: seq<int>, start: int, passes: seq<Pass>) returns (outcome: Outcome, written: nat)
      requires ringBuffer.Valid()
      modifies this`played, ringBuffer, ringBuffer.buffer
      ensures ringBuffer.Valid() && written <= |volumed| && outcome != NotReady
      ensures outcome == Done ==> written == |volumed|
      ensures outcome == Stalled ==> written < |volumed| && ringBuffer.count == ringBuffer.size
      ensures Stream() == old(Stream()) + volumed[..written]
      ensures Sent(outcome, written) == Passes(ringBuffer.size, old(ringBuffer.count), |volumed|, 0, start, passes)
    {
      hide Window, RingBuffer.Contents, RingBuffer.Valid, Passes;
      CountBound(ringBuffer);
      ghost var result := Passes(ringBuffer.size, ringBuffer.count, |volumed|, 0, start, passes);
      written := 0;
      assert passes[0..] == passes;
      var lastProgress := start;
      var i := 0;
      while written < |volumed| && i < |passes|
        invariant ringBuffer.Valid() && written <= |volumed| && i <= |passes| && ringBuffer.count <= ringBuffer.size
        invariant Stream() == old(Stream()) + volumed[..written]
        invariant Passes(ringBuffer.size, ringBuffer.count, |volumed|, written, lastProgress, passes[i..]) == result
        decreases |passes| - i
      {
        PassesStep(ringBuffer.size, ringBuffer.count, |volumed|, written, lastProgress, passes, i);
        var n := OnePass(volumed, written, passes[i].drain);
        if n > 0 {
          written := written + n;
          lastProgress := passes[i].now;
        } else if passes[i].now - lastProgress > MAX_STALL {
          return Stalled, written;
        }
        i := i + 1;
      }
      PassesEnd(ringBuffer.size, ringBuffer.count, |volumed|, written, lastProgress, passes[i..]);
      outcome := if written < |volumed| then Waiting else Done;
    }
  }
}
