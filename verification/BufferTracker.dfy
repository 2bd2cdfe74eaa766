/** The per-client send tracker of pkg/sendspin/buffer_tracker.go, and the server tick that drives it. */
module BufferTrackers {
  import opened Numbers
  import opened Rings

  datatype Chunk = Chunk(endTimeUs: int, byteCount: int, durationUs: int)

  const DEFAULT_MAX_BUFFER_DURATION_US: int := 30_000_000
  const INITIAL_RING: nat := 1500
  const DEFAULT_CAPACITY: int := 1048576

  function Bytes(s: seq<Chunk>): int { if s == [] then 0 else s[0].byteCount + Bytes(s[1..]) }

  function Duration(s: seq<Chunk>): int { if s == [] then 0 else s[0].durationUs + Duration(s[1..]) }

  lemma {:induction false} SumsAppend(s: seq<Chunk>, c: Chunk)
    ensures Bytes(s + [c]) == Bytes(s) + c.byteCount && Duration(s + [c]) == Duration(s) + c.durationUs
  {
    if s == [] {
      assert s + [c] == [c];
    } else {
      assert (s + [c])[1..] == s[1..] + [c];
      SumsAppend(s[1..], c);
    }
  }

  /** What PruneConsumed leaves: the chunks from the first unfinished one on. */
  function DropConsumed(s: seq<Chunk>, now: int): seq<Chunk> {
    if s == [] || s[0].endTimeUs > now then s else DropConsumed(s[1..], now)
  }

  lemma PopSums(c: Chunk, rest: seq<Chunk>, now: int)
    ensures Bytes([c] + rest) == c.byteCount + Bytes(rest) && Duration([c] + rest) == c.durationUs + Duration(rest)
    ensures DropConsumed([c] + rest, now) == if c.endTimeUs > now then [c] + rest else DropConsumed(rest, now)
  {
    assert ([c] + rest)[1..] == rest;
  }

  lemma DropNothing(now: int)
    ensures DropConsumed([], now) == []
  {
  }

  class BufferTracker {
    var ring: array<Chunk>
    var head: nat
    var count: nat
    var bufferedBytes: int
    var bufferedDurationUs: int
    const capacityBytes: int
    const maxDurationUs: int

    ghost predicate Valid()
      reads this, ring
    {
      && head < ring.Length && count <= ring.Length
      && bufferedBytes == Bytes(Contents()) && bufferedDurationUs == Duration(Contents())
    }

    /** The live entries, oldest first. */
    ghost function Contents(): seq<Chunk>
      requires head < ring.Length && count <= ring.Length
      reads this, ring
    {
      Window(ring[..], head, count)
    }

    constructor (capacity: int)
      ensures Valid() && fresh(ring) && Contents() == []
      ensures capacityBytes == (if capacity <= 0 then 1024 * 1024 else capacity)
      ensures maxDurationUs == 30_000_000 && ring.Length == 1500
    {
      capacityBytes := if capacity <= 0 then DEFAULT_CAPACITY else capacity;
      maxDurationUs := DEFAULT_MAX_BUFFER_DURATION_US;
      ring := new Chunk[INITIAL_RING](_ => Chunk(0, 0, 0));
      head, count, bufferedBytes, bufferedDurationUs := 0, 0, 0, 0;
    }

    method PruneConsumed(nowUs: int)
      requires Valid()
      modifies this
      ensures Valid() && ring == old(ring) && Contents() == DropConsumed(old(Contents()), nowUs)
    {
      hide Window, Bytes, Duration, DropConsumed;
      DropNothing(nowUs);
      ghost var all := Contents();
      while count > 0
        invariant Valid() && ring == old(ring)
        invariant DropConsumed(Contents(), nowUs) == DropConsumed(all, nowUs)
        decreases count
      {
        var entry := ring[head];
        WindowPop(ring[..], head, count);
        PopSums(entry, Window(ring[..], (head + 1) % ring.Length, count - 1), nowUs);
        if entry.endTimeUs > nowUs { break; }
        bufferedBytes := bufferedBytes - entry.byteCount;
        bufferedDurationUs := bufferedDurationUs - entry.durationUs;
        head := (head + 1) % ring.Length;
        count := count - 1;
      }
    }

    method CanSend(byteCount: int, durationUs: int) returns (ok: bool)
      requires Valid()
      ensures ok <==>
        Bytes(Contents()) + byteCount <= capacityBytes && Duration(Contents()) + durationUs <= maxDurationUs
    {
      if bufferedBytes + byteCount > capacityBytes { return false; }
      if bufferedDurationUs + durationUs > maxDurationUs { return false; }
      ok := true;
    }

    method Register(endTimeUs: int, byteCount: int, durationUs: int)
      requires Valid()
      modifies this, ring
      ensures Valid() && (ring == old(ring) || fresh(ring))
      ensures Contents() == old(Contents()) + [Chunk(endTimeUs, byteCount, durationUs)]
      ensures ring.Length == if old(count) == old(ring.Length) then 2 * old(ring.Length) else old(ring.Length)
      ensures old(count) < old(ring.Length) ==> ring == old(ring)
    {
      if count == ring.Length { Grow(); }
      Put(Chunk(endTimeUs, byteCount, durationUs));
    }

    method Put(c: Chunk)
      requires Valid() && count < ring.Length
      modifies this, ring
      ensures Valid() && ring == old(ring) && Contents() == old(Contents()) + [c]
    {
      hide Window, Bytes, Duration;
      ghost var store := ring[..];
      WindowPush(store, head, count, c);
      SumsAppend(Contents(), c);
      var idx := (head + count) % ring.Length;
      ring[idx] := c;
      assert ring[..] == store[idx := c];
      assert Window(ring[..], head, count + 1) == Window(store, head, count) + [c];
      count := count + 1;
      bufferedBytes := bufferedBytes + c.byteCount;
      bufferedDurationUs := bufferedDurationUs + c.durationUs;
    }

    /** The live entries at the start of a store twice the size. */
    method CopyOut() returns (newRing: array<Chunk>)
      requires Valid() && count == ring.Length
      ensures fresh(newRing) && newRing.Length == 2 * ring.Length && newRing[..count] == Contents()
    {
      hide Window, Bytes, Duration;
      ghost var before := Contents();
      newRing := new Chunk[ring.Length * 2](_ => Chunk(0, 0, 0));
      var i := 0;
      while i < count
        invariant 0 <= i <= count
        invariant newRing[..i] == before[..i]
      {
        WindowAt(ring[..], head, count, i);
        newRing[i] := ring[(head + i) % ring.Length];
        i := i + 1;
      }
    }

    method Grow()
      requires Valid() && count == ring.Length
      modifies this
      ensures Valid() && fresh(ring) && Contents() == old(Contents())
      ensures ring.Length == 2 * old(ring.Length) && count == old(count)
    {
      hide Window, Bytes, Duration;
      ghost var before := Contents();
      var newRing := CopyOut();
      WindowFromStart(newRing[..], count);
      ring := newRing;
      head := 0;
      assert Contents() == newRing[..][..count] == newRing[..count] == before;
    }
  }

  // ---------------------------------------------------------------- the server's tick

  const CHUNK_US: int := 20_000           // ChunkDurationMs
  const BUFFER_AHEAD_US: int := 500_000   // BufferAheadMs

  /** One audio tick for one client: prune, ask, send, and register what was sent. */
  method SendTick(t: BufferTracker, now: int, size: int, accepted: bool) returns (sent: bool)
    requires t.Valid()
    modifies t, t.ring
    ensures t.Valid() && (t.ring == old(t.ring) || fresh(t.ring))
    ensures var (s, b) := TickSpec(old(t.Contents()), t.capacityBytes, t.maxDurationUs, now, size, accepted);
      t.Contents() == s && sent == b
    ensures |t.Contents()| <= old(t.ring.Length) ==> t.ring == old(t.ring)
  {
    var playbackTime := now + BUFFER_AHEAD_US;
    t.PruneConsumed(now);
    var ok := t.CanSend(size, CHUNK_US);
    if !ok { return false; }
    if !accepted { return false; }
    t.Register(playbackTime + CHUNK_US, size, CHUNK_US);
    sent := true;
  }

  function TickSpec(s: seq<Chunk>, capacity: int, maxUs: int, now: int, size: int, accepted: bool): (seq<Chunk>, bool) {
    var kept := DropConsumed(s, now);
    if Bytes(kept) + size <= capacity && Duration(kept) + CHUNK_US <= maxUs && accepted
    then (kept + [Chunk(now + BUFFER_AHEAD_US + CHUNK_US, size, CHUNK_US)], true)
    else (kept, false)
  }

  /** now: the server clock; size: the encoded chunk; accepted: whether the connection took it. */
  datatype Tick = Tick(now: int, size: nat, accepted: bool)

  /** held: the tracker's contents; log: every chunk ever sent to the client, oldest first. */
  datatype Client = Client(held: seq<Chunk>, log: seq<Chunk>, capacity: int)

  function After(c: Client, k: Tick): Client {
    var (held, sent) := TickSpec(c.held, c.capacity, DEFAULT_MAX_BUFFER_DURATION_US, k.now, k.size, k.accepted);
    c.(held := held, log := if sent then c.log + [held[|held| - 1]] else c.log)
  }

  function Run(c: Client, ks: seq<Tick>): Client {
    if ks == [] then c else After(Run(c, ks[..|ks| - 1]), ks[|ks| - 1])
  }

  predicate MonotoneClock(ks: seq<Tick>) { forall i :: 0 <= i < |ks| - 1 ==> ks[i].now <= ks[i + 1].now }

  predicate SpacedTicks(ks: seq<Tick>) { forall i :: 0 <= i < |ks| - 1 ==> ks[i].now + CHUNK_US <= ks[i + 1].now }

  /** The reference: every chunk of the log that is still playing or yet to play. */
  function Unfinished(log: seq<Chunk>, now: int): seq<Chunk> {
    if log == [] then []
    else (if log[0].endTimeUs > now then [log[0]] else []) + Unfinished(log[1..], now)
  }

  predicate Ascending(s: seq<Chunk>) { forall i, j :: 0 <= i < j < |s| ==> s[i].endTimeUs <= s[j].endTimeUs }

  lemma {:induction false} DropIsFilter(s: seq<Chunk>, now: int)
    requires Ascending(s)
    ensures DropConsumed(s, now) == Unfinished(s, now)
  {
    if s == [] {
    } else {
      if s[0].endTimeUs > now {
        AllUnfinished(s, now);
      } else {
        DropIsFilter(s[1..], now);
      }
    }
  }

  lemma {:induction false} AllUnfinished(s: seq<Chunk>, now: int)
    requires forall i :: 0 <= i < |s| ==> s[i].endTimeUs > now
    ensures Unfinished(s, now) == s
  {
    if s == [] {
    } else {
      AllUnfinished(s[1..], now);
    }
  }

  lemma {:induction false} UnfinishedTwice(log: seq<Chunk>, t: int, now: int)
    requires t <= now
    ensures Unfinished(Unfinished(log, t), now) == Unfinished(log, now)
  {
    if log == [] {
    } else {
      UnfinishedTwice(log[1..], t, now);
      var rest := Unfinished(log[1..], t);
      if log[0].endTimeUs > t {
        assert Unfinished(log, t) == [log[0]] + rest;
        assert ([log[0]] + rest)[1..] == rest;
      } else {
        assert Unfinished(log, t) == rest;
      }
    }
  }

  lemma {:induction false} UnfinishedAppend(log: seq<Chunk>, c: Chunk, now: int)
    ensures Unfinished(log + [c], now) == Unfinished(log, now) + (if c.endTimeUs > now then [c] else [])
  {
    if log == [] {
      assert log + [c] == [c];
    } else {
      assert (log + [c])[1..] == log[1..] + [c];
      UnfinishedAppend(log[1..], c, now);
    }
  }

  lemma {:induction false} UnfinishedAscending(log: seq<Chunk>, now: int)
    requires Ascending(log)
    ensures Ascending(Unfinished(log, now))
    ensures forall c :: c in Unfinished(log, now) ==> c in log && c.endTimeUs > now
  {
    if log == [] {
    } else {
      UnfinishedAscending(log[1..], now);
    }
  }

  /** The tracker is the log, filtered; and the log's end times stay within the send-ahead of the clock. */
  ghost predicate Faithful(c: Client, now: int) {
    && c.held == Unfinished(c.log, now)
    && Ascending(c.log)
    && forall x :: x in c.log ==>
      x.endTimeUs <= now + BUFFER_AHEAD_US + CHUNK_US && x.durationUs == CHUNK_US && x.byteCount >= 0
  }

  lemma AfterFaithful(c: Client, t: int, k: Tick)
    requires Faithful(c, t) && t <= k.now
    ensures Faithful(After(c, k), k.now)
  {
    hide Bytes, Duration, DropConsumed, Unfinished;
    UnfinishedAscending(c.log, t);
    DropIsFilter(c.held, k.now);
    UnfinishedTwice(c.log, t, k.now);
    var kept := DropConsumed(c.held, k.now);
    assert kept == Unfinished(c.log, k.now);
    var n := After(c, k);
    var added := Chunk(k.now + BUFFER_AHEAD_US + CHUNK_US, k.size, CHUNK_US);
    if n.log != c.log {
      SumsAppend(kept, added);
      UnfinishedAppend(c.log, added, k.now);
    }
  }

  /** The caps: CanSend lets a chunk in only if both totals stay within bounds, and pruning lowers them. */
  lemma AfterWithinCaps(c: Client, t: int, k: Tick)
    requires Faithful(c, t) && Bytes(c.held) <= c.capacity && Duration(c.held) <= DEFAULT_MAX_BUFFER_DURATION_US
    ensures Bytes(After(c, k).held) <= c.capacity && Duration(After(c, k).held) <= DEFAULT_MAX_BUFFER_DURATION_US
  {
    hide Bytes, Duration, DropConsumed, Unfinished, Ascending;
    UnfinishedAscending(c.log, t);
    var kept := DropConsumed(c.held, k.now);
    DropShrinks(c.held, k.now);
    SumsAppend(kept, Chunk(k.now + BUFFER_AHEAD_US + CHUNK_US, k.size, CHUNK_US));
  }

  lemma {:induction false} DropShrinks(s: seq<Chunk>, now: int)
    requires forall c :: c in s ==> c.byteCount >= 0 && c.durationUs == CHUNK_US
    ensures Bytes(DropConsumed(s, now)) <= Bytes(s) && Duration(DropConsumed(s, now)) <= Duration(s)
  {
    if s == [] {
    } else {
      DropShrinks(s[1..], now);
    }
  }

  /**
   Main result, for every run with a monotone clock: after each tick the tracker holds exactly the sent chunks
   whose end lies ahead, its byte and time totals are theirs, and neither cap is ever exceeded.
   */
  lemma {:induction false} TracksLog(capacity: int, ks: seq<Tick>)
    requires capacity >= 0 && MonotoneClock(ks) && ks != []
    ensures var c := Run(Client([], [], capacity), ks); var now := ks[|ks| - 1].now;
      Faithful(c, now) && Bytes(c.held) <= capacity && Duration(c.held) <= DEFAULT_MAX_BUFFER_DURATION_US
      && c.capacity == capacity
    decreases |ks|
  {
    var k := ks[|ks| - 1];
    var before := Run(Client([], [], capacity), ks[..|ks| - 1]);
    var t := if |ks| == 1 then k.now else ks[|ks| - 2].now;
    if |ks| == 1 {
      assert before == Client([], [], capacity);
    } else {
      TracksLog(capacity, ks[..|ks| - 1]);
    }
    AfterFaithful(before, t, k);
    AfterWithinCaps(before, t, k);
  }

  // ---------------------------------------------------------------- what is sent

  /**
   The reference, in the log alone: a tick sends its chunk if the connection accepts it, its bytes fit beside those of
   the chunks whose end lies ahead, and with it these last no longer than 30 seconds. The chunk ends 520 ms ahead.
   */
  function SentLog(capacity: int, ks: seq<Tick>): seq<Chunk> {
    if ks == [] then [] else SentAt(SentLog(capacity, ks[..|ks| - 1]), capacity, ks[|ks| - 1])
  }

  function SentAt(log: seq<Chunk>, capacity: int, k: Tick): seq<Chunk> {
    var ahead := Unfinished(log, k.now);
    if k.accepted && Bytes(ahead) + k.size <= capacity && 20_000 * (|ahead| + 1) <= 30_000_000
    then log + [Chunk(k.now + 520_000, k.size, 20_000)]
    else log
  }

  /** One entry of the log for each tick that sent, with that tick's time and size. */
  lemma {:induction false} SentLogEntry(capacity: int, ks: seq<Tick>, i: nat) returns (j: nat)
    requires i < |SentLog(capacity, ks)|
    ensures j < |ks| && ks[j].accepted && SentLog(capacity, ks)[i] == Chunk(ks[j].now + 520_000, ks[j].size, 20_000)
    ensures |SentLog(capacity, ks[..j])| == i
    decreases |ks|
  {
    var n := |ks| - 1;
    if i < |SentLog(capacity, ks[..n])| {
      j := SentLogEntry(capacity, ks[..n], i);
      assert ks[..n][..j] == ks[..j];
    } else {
      j := n;
    }
  }

  /** Main result: the tracker's decisions over every run with a monotone clock are those of the reference. */
  lemma {:induction false} SendsLog(capacity: int, ks: seq<Tick>)
    requires MonotoneClock(ks)
    ensures var c := Run(Client([], [], capacity), ks);
      && c.log == SentLog(capacity, ks) && c.capacity == capacity
      && (ks != [] ==> Faithful(c, ks[|ks| - 1].now))
    decreases |ks|
  {
    if ks == [] {
    } else {
      var n := |ks| - 1;
      var start, k := Client([], [], capacity), ks[n];
      var t := if n == 0 then k.now else ks[n - 1].now;
      assert t <= k.now && MonotoneClock(ks[..n]);
      assert ks[..n + 1] == ks && (n == 0 ==> ks[..n] == []);
      assert SentLog(capacity, ks) == SentAt(SentLog(capacity, ks[..n]), capacity, k);
      hide Bytes, DropConsumed, Unfinished, Run, After, Faithful, TickSpec, SentAt, SentLog, MonotoneClock;
      SendsLog(capacity, ks[..n]);
      RunMore(start, ks, n);
      RunNone(start, ks);
      FaithfulEmpty(capacity, t);
      AfterFaithful(Run(start, ks[..n]), t, k);
      AfterSends(Run(start, ks[..n]), t, k);
    }
  }

  lemma FaithfulEmpty(capacity: int, now: int)
    ensures Faithful(Client([], [], capacity), now)
  {
  }

  /** One tick, in terms of the log: it is kept or extended, exactly when the three conditions hold. */
  lemma AfterSends(c: Client, t: int, k: Tick)
    requires Faithful(c, t) && t <= k.now
    ensures After(c, k).log == SentAt(c.log, c.capacity, k)
  {
    hide Bytes, Duration, DropConsumed, Unfinished;
    UnfinishedAscending(c.log, t);
    DropIsFilter(c.held, k.now);
    UnfinishedTwice(c.log, t, k.now);
    var ahead := Unfinished(c.log, k.now);
    UnfinishedAscending(c.log, k.now);
    DurationOf(ahead);
  }

  // ---------------------------------------------------------------- ticks at least 20 ms apart

  predicate Spaced(s: seq<Chunk>) { forall i :: 0 <= i < |s| - 1 ==> s[i].endTimeUs + CHUNK_US <= s[i + 1].endTimeUs }

  /** Chunks of one tick each, none ending later than a tick at `now` would make it. */
  ghost predicate Sparse(s: seq<Chunk>, now: int) {
    && Spaced(s)
    && (forall i :: 0 <= i < |s| ==> s[i].durationUs == CHUNK_US && s[i].endTimeUs <= now + BUFFER_AHEAD_US + CHUNK_US)
  }

  lemma {:induction false} DropSparse(s: seq<Chunk>, t: int, now: int)
    requires Sparse(s, t)
    ensures Sparse(DropConsumed(s, now), t) && (DropConsumed(s, now) != [] ==> DropConsumed(s, now)[0].endTimeUs > now)
  {
    if s == [] {
    } else {
      DropSparse(s[1..], t, now);
    }
  }

  lemma {:induction false} SpacedSpan(s: seq<Chunk>)
    requires Spaced(s) && s != []
    ensures s[|s| - 1].endTimeUs >= s[0].endTimeUs + CHUNK_US * (|s| - 1)
  {
    if |s| > 1 { SpacedSpan(s[1..]); }
  }

  lemma {:induction false} DurationOf(s: seq<Chunk>)
    requires forall i :: 0 <= i < |s| ==> s[i].durationUs == CHUNK_US
    ensures Duration(s) == CHUNK_US * |s|
  {
    if s == [] {
    } else {
      DurationOf(s[1..]);
    }
  }

  lemma AfterSparse(c: Client, t: int, k: Tick)
    requires Sparse(c.held, t) && t + CHUNK_US <= k.now
    ensures Sparse(After(c, k).held, k.now) && |After(c, k).held| <= 26
    ensures After(c, k).log != c.log <==> Bytes(DropConsumed(c.held, k.now)) + k.size <= c.capacity && k.accepted
  {
    DropSparse(c.held, t, k.now);
    var kept := DropConsumed(c.held, k.now);
    if kept != [] { SpacedSpan(kept); }
    DurationOf(kept);
  }

  /**
   With ticks at least 20 ms apart a client never has more than 26 chunks in flight. So the 30 second cap never
   refuses a chunk: a tick sends exactly when the bytes fit and the connection accepts.
   */
  lemma {:induction false} AtMost26(capacity: int, ks: seq<Tick>)
    requires SpacedTicks(ks) && ks != []
    ensures var before := Run(Client([], [], capacity), ks[..|ks| - 1]); var k := ks[|ks| - 1];
      var c := Run(Client([], [], capacity), ks);
      Sparse(c.held, k.now) && |c.held| <= 26
      && (c.log != before.log <==> Bytes(DropConsumed(before.held, k.now)) + k.size <= capacity && k.accepted)
      && c.capacity == capacity
    decreases |ks|
  {
    var k := ks[|ks| - 1];
    if |ks| == 1 {
      AfterSparse(Client([], [], capacity), k.now - CHUNK_US, k);
    } else {
      AtMost26(capacity, ks[..|ks| - 1]);
      AfterSparse(Run(Client([], [], capacity), ks[..|ks| - 1]), ks[|ks| - 2].now, k);
    }
  }

  /**
   All ticks of one client, as the server makes them: the tracker holds what Run says, and if the ticks are 20 ms apart
   the ring allocated at the start is the one in use at the end.
   */
  method ServeClient(capacity: int, ks: seq<Tick>) returns (t: BufferTracker)
    ensures fresh(t) && fresh(t.ring) && t.Valid()
    ensures t.Contents() == Run(Client([], [], t.capacityBytes), ks).held
    ensures MonotoneClock(ks) && ks != [] ==> t.Contents() == Unfinished(SentLog(t.capacityBytes, ks), ks[|ks| - 1].now)
    ensures SpacedTicks(ks) ==> t.ring.Length == 1500 && |t.Contents()| <= 26
  {
    hide Run, After, Sparse, Bytes, DropConsumed, TickSpec, SpacedTicks, MonotoneClock, SentLog, Unfinished;
    t := new BufferTracker(capacity);
    ghost var start, ring := Client([], [], t.capacityBytes), t.ring;
    RunNone(start, ks);
    for i := 0 to |ks|
      invariant t.Valid() && fresh(t.ring) && t.maxDurationUs == DEFAULT_MAX_BUFFER_DURATION_US
      invariant start.capacity == t.capacityBytes && Run(start, ks[..i]).capacity == start.capacity
      invariant t.Contents() == Run(start, ks[..i]).held
      invariant SpacedTicks(ks) ==> t.ring == ring && |t.Contents()| <= 26
    {
      var k := ks[i];
      RunMore(start, ks, i);
      if SpacedTicks(ks) {
        SpacedPrefix(ks, i + 1);
        AtMost26(t.capacityBytes, ks[..i + 1]);
      }
      var _ := SendTick(t, k.now, k.size, k.accepted);
    }
    assert ks[..|ks|] == ks;
    if MonotoneClock(ks) { SendsLog(t.capacityBytes, ks); }
  }

  lemma RunNone(c: Client, ks: seq<Tick>)
    ensures Run(c, ks[..0]) == c
  {
  }

  lemma RunMore(c: Client, ks: seq<Tick>, i: nat)
    requires i < |ks|
    ensures var b, n := Run(c, ks[..i]), Run(c, ks[..i + 1]);
      && n == After(b, ks[i]) && n.capacity == b.capacity
      && n.held == TickSpec(b.held, b.capacity, DEFAULT_MAX_BUFFER_DURATION_US, ks[i].now, ks[i].size, ks[i].accepted).0
  {
    hide TickSpec;
    assert ks[..i + 1][..i] == ks[..i];
  }

  lemma SpacedPrefix(ks: seq<Tick>, i: nat)
    requires SpacedTicks(ks) && i <= |ks|
    ensures SpacedTicks(ks[..i])
  {
  }
}
