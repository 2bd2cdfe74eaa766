/** The playback queue and scheduler of pkg/sendspin/scheduler.go, with Go's container/heap beneath it. */
module Schedulers {
  import opened Numbers
  import opened TimeFilters
  import opened Clocks

  /** playAt is local time in nanoseconds. */
  datatype Buffer = Buffer(timestamp: int, playAt: int, samples: seq<int>)

  // ---------------------------------------------------------------- the heap

  function Parent(j: int): int
    requires j >= 1
  {
    (j - 1) / 2
  }

  predicate IsHeap(s: seq<Buffer>) { forall j :: 1 <= j < |s| ==> s[Parent(j)].playAt <= s[j].playAt }

  /** Heap order among the first n entries, except between j and its parent. */
  ghost predicate HeapButAbove(s: seq<Buffer>, j: int) {
    && (forall k :: 1 <= k < |s| && k != j ==> s[Parent(k)].playAt <= s[k].playAt)
    && (forall k :: 1 <= k < |s| && Parent(k) == j && j >= 1 ==> s[Parent(j)].playAt <= s[k].playAt)
  }

  /** Heap order among the first n entries, except between i and its children. */
  ghost predicate HeapButBelow(s: seq<Buffer>, i: int, n: int)
    requires 0 <= n <= |s|
  {
    && (forall k :: 1 <= k < n && Parent(k) != i ==> s[Parent(k)].playAt <= s[k].playAt)
    && (forall k :: 1 <= k < n && Parent(k) == i && i >= 1 ==> s[Parent(i)].playAt <= s[k].playAt)
  }

  lemma {:induction false} RootIsLeast(s: seq<Buffer>, j: nat)
    requires IsHeap(s) && j < |s|
    ensures s[0].playAt <= s[j].playAt
    decreases j
  {
    if j == 0 {
    } else {
      RootIsLeast(s, Parent(j));
    }
  }

  function Swapped(s: seq<Buffer>, i: nat, j: nat): (r: seq<Buffer>)
    requires i < |s| && j < |s|
    ensures |r| == |s| && multiset(r) == multiset(s)
    ensures forall k :: 0 <= k < |s| ==> r[k] == if k == i then s[j] else if k == j then s[i] else s[k]
  {
    s[i := s[j]][j := s[i]]
  }

  lemma UpStep(s: seq<Buffer>, j: nat)
    requires 0 < j < |s| && HeapButAbove(s, j) && s[j].playAt < s[Parent(j)].playAt
    ensures HeapButAbove(Swapped(s, Parent(j), j), Parent(j))
  {
    var i := Parent(j);
    var t := Swapped(s, i, j);
    forall k | 1 <= k < |t| && k != i ensures t[Parent(k)].playAt <= t[k].playAt {
      assert k != j ==> s[Parent(k)].playAt <= s[k].playAt;
    }
    forall k | 1 <= k < |t| && Parent(k) == i && i >= 1 ensures t[Parent(i)].playAt <= t[k].playAt {
      assert s[Parent(i)].playAt <= s[i].playAt;
      assert k != j ==> s[i].playAt <= s[k].playAt;
    }
  }

  /** j is the lesser child of i. */
  predicate LesserChild(s: seq<Buffer>, i: nat, j: nat, n: nat)
    requires n <= |s|
  {
    1 <= j < n && Parent(j) == i && forall k :: 1 <= k < n && Parent(k) == i ==> s[j].playAt <= s[k].playAt
  }

  lemma ChooseChild(s: seq<Buffer>, i: nat, j: nat, n: nat)
    requires n <= |s| && 2 * i + 1 < n
    requires j == if 2 * i + 2 < n && s[2 * i + 2].playAt < s[2 * i + 1].playAt then 2 * i + 2 else 2 * i + 1
    ensures LesserChild(s, i, j, n) && j > i
  {
    forall k | 1 <= k < n && Parent(k) == i ensures k == 2 * i + 1 || k == 2 * i + 2 {}
  }

  lemma DownStep(s: seq<Buffer>, i: nat, j: nat, n: nat)
    requires n <= |s| && HeapButBelow(s, i, n) && LesserChild(s, i, j, n) && s[j].playAt < s[i].playAt
    ensures HeapButBelow(Swapped(s, i, j), j, n)
  {
    var t := Swapped(s, i, j);
    forall k | 1 <= k < n && Parent(k) != j ensures t[Parent(k)].playAt <= t[k].playAt {
      if k == i {
        assert s[Parent(i)].playAt <= s[j].playAt;
      } else if k != j && Parent(k) != i {
        assert s[Parent(k)].playAt <= s[k].playAt;
      }
    }
    forall k | 1 <= k < n && Parent(k) == j ensures t[Parent(j)].playAt <= t[k].playAt {
      assert s[Parent(k)].playAt <= s[k].playAt;
    }
  }

  lemma DownStop(s: seq<Buffer>, i: nat, j: nat, n: nat)
    requires n <= |s| && HeapButBelow(s, i, n) && LesserChild(s, i, j, n) && s[i].playAt <= s[j].playAt
    ensures IsHeap(s[..n])
  {
    forall k | 1 <= k < n ensures s[Parent(k)].playAt <= s[k].playAt {
      assert Parent(k) != i ==> s[Parent(k)].playAt <= s[k].playAt;
    }
  }

  lemma DownLeaf(s: seq<Buffer>, i: nat, n: nat)
    requires n <= |s| && HeapButBelow(s, i, n) && 2 * i + 1 >= n
    ensures IsHeap(s[..n])
  {
    forall k | 1 <= k < n ensures s[Parent(k)].playAt <= s[k].playAt {
      assert Parent(k) != i;
    }
  }

  class BufferQueue {
    var items: seq<Buffer>

    constructor ()
      ensures items == []
    {
      items := [];
    }

    method Swap(i: nat, j: nat)
      modifies this
      ensures items == if i < |old(items)| && j < |old(items)| then Swapped(old(items), i, j) else old(items)
    {
      if i >= |items| || j >= |items| { return; }
      items := items[i := items[j]][j := items[i]];
    }

    predicate Less(i: nat, j: nat)
      reads this
    {
      i < |items| && j < |items| && items[i].playAt < items[j].playAt
    }

    /** heap.Push */
    method Push(x: Buffer)
      requires IsHeap(items)
      modifies this
      ensures IsHeap(items) && multiset(items) == multiset(old(items)) + multiset{x}
    {
      items := items + [x];
      Up(|items| - 1);
    }

    method Up(j0: nat)
      requires j0 < |items| && HeapButAbove(items, j0)
      modifies this
      ensures IsHeap(items) && multiset(items) == multiset(old(items))
    {
      var j := j0;
      while j > 0 && Less(j, (j - 1) / 2)
        invariant j < |items| && HeapButAbove(items, j)
        invariant multiset(items) == multiset(old(items))
      {
        var i := (j - 1) / 2;
        UpStep(items, j);
        Swap(i, j);
        j := i;
      }
    }

    /** heap.Pop: takes out the root, a least entry. */
    method Pop() returns (x: Buffer)
      requires IsHeap(items) && items != []
      modifies this
      ensures IsHeap(items) && multiset(old(items)) == multiset(items) + multiset{x}
      ensures x == old(items)[0]
    {
      var n := |items| - 1;
      ghost var before := items;
      Swap(0, n);
      assert items[n] == before[0];
      assert HeapButBelow(items, 0, n) by { RootSwapped(before, n); }
      Down(0, n);
      assert items == items[..n] + [items[n]];
      x := items[n];
      items := items[..n];
    }

    method Down(i0: nat, n: nat)
      requires n <= |items| && HeapButBelow(items, i0, n)
      modifies this
      ensures |items| == |old(items)| && IsHeap(items[..n])
      ensures forall k :: n <= k < |items| ==> items[k] == old(items)[k]
      ensures multiset(items) == multiset(old(items))
    {
      hide HeapButBelow, LesserChild, IsHeap, Swapped;
      var i := i0;
      while true
        invariant |items| == |old(items)| && HeapButBelow(items, i, n)
        invariant forall k :: n <= k < |items| ==> items[k] == old(items)[k]
        invariant multiset(items) == multiset(old(items))
        decreases |items| + n - i
      {
        var j1 := 2 * i + 1;
        if j1 >= n {
          DownLeaf(items, i, n);
          return;
        }
        var j := j1;
        if j1 + 1 < n && Less(j1 + 1, j1) { j := j1 + 1; }
        ChooseChild(items, i, j, n);
        if !Less(j, i) {
          DownStop(items, i, j, n);
          return;
        }
        DownStep(items, i, j, n);
        Swap(i, j);
        i := j;
      }
    }
  }

  lemma RootSwapped(s: seq<Buffer>, n: nat)
    requires IsHeap(s) && n == |s| - 1
    ensures HeapButBelow(Swapped(s, 0, n), 0, n)
  {
    var t := Swapped(s, 0, n);
    forall k | 1 <= k < n && Parent(k) != 0 ensures t[Parent(k)].playAt <= t[k].playAt {
      assert s[Parent(k)].playAt <= s[k].playAt;
    }
  }

  // ---------------------------------------------------------------- the scheduler

  const MAX_STATIC_DELAY_MS: int := 5000
  const CHUNK_DURATION_MS: int := 20
  const WINDOW: int := 50_000_000  // nanoseconds either side of the play time

  predicate Late(b: Buffer, now: int) { b.playAt - now < -WINDOW }
  predicate Early(b: Buffer, now: int) { b.playAt - now > WINDOW }
  predicate Due(b: Buffer, now: int) { -WINDOW <= b.playAt - now <= WINDOW }

  predicate Sorted(s: seq<Buffer>) { forall i, j :: 0 <= i < j < |s| ==> s[i].playAt <= s[j].playAt }

  /** The observable state: the queue as a bag, the gate, and the counters (cleared counts what Clear discarded). */
  datatype Sched = Sched(queue: multiset<Buffer>, buffering: bool, received: nat,
    played: nat, dropped: nat, cleared: nat)

  datatype Label = Scheduled(b: Buffer) | Ticked(now: int, out: seq<Buffer>, late: seq<Buffer>) | Cleared

  ghost predicate Partition(q: multiset<Buffer>, now: int, out: seq<Buffer>, late: seq<Buffer>, q': multiset<Buffer>) {
    && q == multiset(out) + multiset(late) + q'
    && (forall b :: b in out ==> Due(b, now))
    && (forall b :: b in late ==> Late(b, now))
    && (forall b :: b in q' ==> Early(b, now))
    && Sorted(out)
  }

  /** A tick cut short with `lost` in hand: what went before it is as in Partition, and it is due and next in order. */
  ghost predicate CutShort(q: multiset<Buffer>, now: int, out: seq<Buffer>, late: seq<Buffer>, lost: seq<Buffer>,
                           q': multiset<Buffer>) {
    && q == multiset(out) + multiset(late) + multiset(lost) + q'
    && (forall b :: b in out + lost ==> Due(b, now))
    && (forall b :: b in late ==> Late(b, now))
    && Sorted(out + lost)
  }

  predicate GateOpens(s: Sched, target: int) { !s.buffering || |s.queue| >= target }

  ghost predicate Moves(s: Sched, target: int, l: Label, s': Sched) {
    match l
    case Scheduled(b) =>
      s' == s.(queue := s.queue + multiset{b}, received := s.received + 1)
    case Ticked(now, out, late) =>
      if GateOpens(s, target) then
        && Partition(s.queue, now, out, late, s'.queue)
        && s' == s.(queue := s'.queue, buffering := false, played := s.played + |out|, dropped := s.dropped + |late|)
      else
        out == [] && late == [] && s' == s
    case Cleared =>
      s' == s.(queue := multiset{}, buffering := true, cleared := s.cleared + |s.queue|)
  }

  /** The partition is forced: what is late, due and early is decided by the queue and the time alone. */
  lemma PartitionUnique(q: multiset<Buffer>, now: int, out1: seq<Buffer>, late1: seq<Buffer>, q1: multiset<Buffer>,
                        out2: seq<Buffer>, late2: seq<Buffer>, q2: multiset<Buffer>)
    requires Partition(q, now, out1, late1, q1) && Partition(q, now, out2, late2, q2)
    ensures multiset(out1) == multiset(out2) && multiset(late1) == multiset(late2) && q1 == q2
  {
    forall b: Buffer
      ensures multiset(out1)[b] == multiset(out2)[b] && multiset(late1)[b] == multiset(late2)[b] && q1[b] == q2[b]
    {
      PartitionCounts(q, now, out1, late1, q1, b);
      PartitionCounts(q, now, out2, late2, q2, b);
    }
  }

  lemma PartitionCounts(q: multiset<Buffer>, now: int, out: seq<Buffer>, late: seq<Buffer>, q': multiset<Buffer>,
                        b: Buffer)
    requires Partition(q, now, out, late, q')
    ensures multiset(out)[b] == if Due(b, now) then q[b] else 0
    ensures multiset(late)[b] == if Late(b, now) then q[b] else 0
    ensures q'[b] == if Early(b, now) then q[b] else 0
  {
    assert b in out <==> b in multiset(out);
    assert b in late <==> b in multiset(late);
  }

  class Scheduler {
    const clockSync: ClockSync
    const staticDelay: int  // nanoseconds
    const bufferTarget: int
    var bufferQ: BufferQueue
    var buffering: bool
    var received: nat
    var played: nat
    var dropped: nat
    ghost var cleared: nat

    ghost predicate Valid()
      reads this, bufferQ
    {
      IsHeap(bufferQ.items)
    }

    ghost function View(): Sched
      reads this, bufferQ
    {
      Sched(multiset(bufferQ.items), buffering, received, played, dropped, cleared)
    }

    constructor (clockSync: ClockSync, bufferMs: int, staticDelayMs: int)
      ensures Valid() && fresh(bufferQ) && this.clockSync == clockSync
      ensures View() == Sched(multiset{}, true, 0, 0, 0, 0)
      ensures 0 <= staticDelayMs <= 5000 ==> staticDelay == staticDelayMs * 1_000_000
      ensures staticDelayMs < 0 ==> staticDelay == 0
      ensures staticDelayMs > 5000 ==> staticDelay == 5_000_000_000
      ensures bufferMs < 20 ==> bufferTarget == 1
      ensures bufferMs >= 20 ==> bufferTarget * 20 <= bufferMs < (bufferTarget + 1) * 20
    {
      var ms :=
        if staticDelayMs < 0 then 0
        else if staticDelayMs > MAX_STATIC_DELAY_MS then MAX_STATIC_DELAY_MS
        else staticDelayMs;
      var target := TruncDiv(bufferMs, CHUNK_DURATION_MS);
      this.clockSync := clockSync;
      staticDelay := ms * 1_000_000;
      bufferTarget := if target < 1 then 1 else target;
      bufferQ := new BufferQueue();
      buffering, received, played, dropped, cleared := true, 0, 0, 0, 0;
    }

    method Schedule(buf: Buffer, platform: int) returns (scheduled: Buffer)
      requires Valid()
      modifies this, bufferQ
      ensures Valid() && bufferQ == old(bufferQ)
      ensures scheduled == buf.(playAt := LocalTime(clockSync.filter.Holds(), buf.timestamp, platform) + staticDelay)
      ensures Moves(old(View()), bufferTarget, Scheduled(scheduled), View())
    {
      var local := clockSync.ServerToLocalTime(buf.timestamp, platform);
      scheduled := buf.(playAt := local + staticDelay);
      received := received + 1;
      bufferQ.Push(scheduled);
    }

    method Clear()
      requires Valid()
      modifies this
      ensures Valid() && fresh(bufferQ)
      ensures Moves(old(View()), bufferTarget, Cleared, View())
    {
      cleared := cleared + |bufferQ.items|;
      bufferQ := new BufferQueue();
      buffering := true;
    }

    /**
     One tick at `now`. The output takes `sends` more buffers before the context is cancelled; the send
     after that makes the call return with the buffer in hand, `lost`.
     */
    method ProcessQueue(now: int, sends: nat)
      returns (out: seq<Buffer>, stopped: bool, late: seq<Buffer>, ghost lost: seq<Buffer>)
      requires Valid()
      modifies this, bufferQ
      ensures Valid() && bufferQ == old(bufferQ)
      ensures !stopped ==> Moves(old(View()), bufferTarget, Ticked(now, out, late), View())
      ensures |out| <= sends && (stopped ==> |out| == sends && |lost| == 1)
      ensures stopped ==>
        && GateOpens(old(View()), bufferTarget)
        && CutShort(old(View()).queue, now, out, late, lost, View().queue)
        && View() == old(View()).(queue := View().queue, buffering := false,
          played := old(played) + |out|, dropped := old(dropped) + |late|)
    {
      hide IsHeap, Partition, CutShort;
      out, stopped, late, lost := [], false, [], [];
      if buffering {
        if |bufferQ.items| >= bufferTarget {
          buffering := false;
        } else {
          return;
        }
      }
      out, stopped, late, lost := Drain(bufferQ, now, sends);
      played := played + |out|;
      dropped := dropped + |late|;
    }
  }

  /** The loop of processQueue: take buffers off the heap until the next one is early. */
  method Drain(q: BufferQueue, now: int, sends: nat)
    returns (out: seq<Buffer>, stopped: bool, late: seq<Buffer>, ghost lost: seq<Buffer>)
    requires IsHeap(q.items)
    modifies q
    ensures IsHeap(q.items)
    ensures !stopped ==> Partition(multiset(old(q.items)), now, out, late, multiset(q.items))
    ensures |out| <= sends && (stopped ==> |out| == sends && |lost| == 1)
    ensures stopped ==> CutShort(multiset(old(q.items)), now, out, late, lost, multiset(q.items))
  {
    hide IsHeap, Progress, Partition, Sorted, CutShort;
    out, stopped, late, lost := [], false, [], [];
    ghost var all := multiset(q.items);
    ProgressStart(now, q.items);
    while |q.items| > 0
      invariant IsHeap(q.items) && Progress(all, now, out, late, q.items) && |out| <= sends
      decreases |q.items|
    {
      var buf := q.items[0];
      ghost var items := q.items;
      var delay := buf.playAt - now;
      if delay > WINDOW {
        break;
      } else if delay < -WINDOW {
        var x := q.Pop();
        ProgressLate(all, now, out, late, items, q.items);
        late := late + [x];
      } else {
        var x := q.Pop();
        if |out| == sends {
          ProgressStopped(all, now, out, late, items, q.items);
          stopped, lost := true, [x];
          return;
        }
        ProgressDue(all, now, out, late, items, q.items);
        out := out + [x];
      }
    }
    ProgressDone(all, now, out, late, q.items);
  }

  /** Midway through a tick: what was taken out, what is left, and nothing left plays before anything emitted. */
  ghost predicate Progress(q: multiset<Buffer>, now: int, out: seq<Buffer>, late: seq<Buffer>, items: seq<Buffer>) {
    && q == multiset(out) + multiset(late) + multiset(items)
    && (forall b :: b in out ==> Due(b, now))
    && (forall b :: b in late ==> Late(b, now))
    && Sorted(out)
    && forall b, y :: b in out && y in items ==> b.playAt <= y.playAt
  }

  lemma ProgressStart(now: int, s: seq<Buffer>)
    ensures Progress(multiset(s), now, [], [], s)
  {
  }

  lemma ProgressStopped(q: multiset<Buffer>, now: int, out: seq<Buffer>, late: seq<Buffer>, s: seq<Buffer>,
                        s': seq<Buffer>)
    requires Progress(q, now, out, late, s) && s != [] && multiset(s) == multiset(s') + multiset{s[0]} && Due(s[0], now)
    ensures CutShort(q, now, out, late, [s[0]], multiset(s'))
  {
  }

  lemma ProgressLate(q: multiset<Buffer>, now: int, out: seq<Buffer>, late: seq<Buffer>, s: seq<Buffer>,
                     s': seq<Buffer>)
    requires Progress(q, now, out, late, s) && s != [] && multiset(s) == multiset(s') + multiset{s[0]}
    requires Late(s[0], now)
    ensures Progress(q, now, out, late + [s[0]], s') && |s'| < |s|
  {
    StillBelow(s, s', s[0]);
  }

  lemma ProgressDue(q: multiset<Buffer>, now: int, out: seq<Buffer>, late: seq<Buffer>, s: seq<Buffer>, s': seq<Buffer>)
    requires Progress(q, now, out, late, s) && s != [] && multiset(s) == multiset(s') + multiset{s[0]} && Due(s[0], now)
    requires IsHeap(s)
    ensures Progress(q, now, out + [s[0]], late, s') && |s'| < |s|
  {
    StillBelow(s, s', s[0]);
    RootBelowAll(s);
    var out' := out + [s[0]];
    assert forall i :: 0 <= i < |out| ==> out[i] in out && out[i].playAt <= s[0].playAt;
    assert forall b :: b in out' ==> b in out || b == s[0];
  }

  lemma ProgressDone(q: multiset<Buffer>, now: int, out: seq<Buffer>, late: seq<Buffer>, s: seq<Buffer>)
    requires Progress(q, now, out, late, s) && IsHeap(s) && (s == [] || Early(s[0], now))
    ensures Partition(q, now, out, late, multiset(s))
  {
    if s != [] { RootBelowAll(s); }
    assert forall b :: b in multiset(s) ==> b in s;
  }

  lemma RootBelowAll(s: seq<Buffer>)
    requires IsHeap(s) && s != []
    ensures forall y :: y in s ==> s[0].playAt <= y.playAt
  {
    forall j | 0 <= j < |s| ensures s[0].playAt <= s[j].playAt { RootIsLeast(s, j); }
  }

  lemma StillBelow(s: seq<Buffer>, s': seq<Buffer>, x: Buffer)
    requires multiset(s) == multiset(s') + multiset{x}
    ensures |s| == |s'| + 1
    ensures forall y :: y in s' ==> y in s
    ensures x in s
  {
    assert |multiset(s)| == |multiset(s')| + 1;
    forall y | y in s' ensures y in s { assert y in multiset(s'); assert y in multiset(s); }
    assert x in multiset(s);
  }

  // ---------------------------------------------------------------- whole runs

  /** states[0] is a new scheduler and each label takes one state to the next. */
  ghost predicate IsRun(target: int, states: seq<Sched>, labels: seq<Label>) {
    && |states| == |labels| + 1
    && states[0] == Sched(multiset{}, true, 0, 0, 0, 0)
    && forall i :: 0 <= i < |labels| ==> Moves(states[i], target, labels[i], states[i + 1])
  }

  predicate Conserved(s: Sched) { s.received == s.played + s.dropped + |s.queue| + s.cleared }

  lemma StepConserves(s: Sched, target: int, l: Label, s': Sched)
    requires Moves(s, target, l, s') && Conserved(s)
    ensures Conserved(s')
  {
    if l.Ticked? && GateOpens(s, target) {
      assert |s.queue| == |multiset(l.out)| + |multiset(l.late)| + |s'.queue|;
    }
  }

  /** No buffer is created or lost between calls. */
  lemma {:induction false} RunConserves(target: int, states: seq<Sched>, labels: seq<Label>, i: nat)
    requires IsRun(target, states, labels) && i < |states|
    ensures Conserved(states[i])
    decreases i
  {
    if i == 0 {
    } else {
      RunConserves(target, states, labels, i - 1);
      StepConserves(states[i - 1], target, labels[i - 1], states[i]);
    }
  }

  /** A tick at j saw a full startup buffer, and nothing was cleared from then until i. */
  ghost predicate OpenedAt(target: int, states: seq<Sched>, labels: seq<Label>, j: nat, i: nat)
    requires |states| == |labels| + 1 && i <= |labels|
  {
    j < i && labels[j].Ticked? && |states[j].queue| >= target && forall k :: j <= k < i ==> !labels[k].Cleared?
  }

  ghost predicate Opened(target: int, states: seq<Sched>, labels: seq<Label>, i: nat)
    requires |states| == |labels| + 1 && i <= |labels|
  {
    exists j: nat :: OpenedAt(target, states, labels, j, i)
  }

  lemma {:induction false} GateInvariant(target: int, states: seq<Sched>, labels: seq<Label>, i: nat)
    requires IsRun(target, states, labels) && i < |states|
    ensures !states[i].buffering ==> Opened(target, states, labels, i)
    decreases i
  {
    if i == 0 {
    } else {
      GateInvariant(target, states, labels, i - 1);
      assert Moves(states[i - 1], target, labels[i - 1], states[i]);
      if !states[i].buffering {
        if states[i - 1].buffering {
          assert OpenedAt(target, states, labels, i - 1, i);
        } else {
          var j: nat :| OpenedAt(target, states, labels, j, i - 1);
          assert OpenedAt(target, states, labels, j, i);
        }
      }
    }
  }

  /**
   The startup gate: whenever a tick emits or drops anything, that tick or an earlier one saw at least
   `target` queued buffers, with no Clear in between.
   */
  lemma StartupGate(target: int, states: seq<Sched>, labels: seq<Label>, i: nat)
    requires IsRun(target, states, labels) && i < |labels| && labels[i].Ticked?
    requires (labels[i].out != [] || labels[i].late != [])
    ensures Opened(target, states, labels, i + 1)
  {
    GateInvariant(target, states, labels, i);
    assert Moves(states[i], target, labels[i], states[i + 1]);
    if states[i].buffering {
      assert OpenedAt(target, states, labels, i, i + 1);
    } else {
      var j: nat :| OpenedAt(target, states, labels, j, i);
      assert OpenedAt(target, states, labels, j, i + 1);
    }
  }

  // ---------------------------------------------------------------- play order is server order

  /** Buffers arrive in the order of their play times. */
  predicate InOrder(labels: seq<Label>) {
    forall i, j :: 0 <= i < j < |labels| && labels[i].Scheduled? && labels[j].Scheduled? ==>
      labels[i].b.playAt <= labels[j].b.playAt
  }

  /** Everything a run emits, tick after tick. */
  function Emitted(labels: seq<Label>): seq<Buffer> {
    if labels == [] then []
    else Emitted(labels[..|labels| - 1]) + if labels[|labels| - 1].Ticked? then labels[|labels| - 1].out else []
  }

  /** Nothing emitted so far plays after anything queued or anything yet to be scheduled. */
  ghost predicate Ahead(labels: seq<Label>, i: nat, out: seq<Buffer>, q: multiset<Buffer>)
    requires i <= |labels|
  {
    && Sorted(out)
    && (forall x, y :: x in out && y in q ==> x.playAt <= y.playAt)
    && (forall x :: x in out || x in q ==> NotAfterLater(labels, i, x))
  }

  ghost predicate NotAfterLater(labels: seq<Label>, i: nat, x: Buffer) {
    forall k :: i <= k < |labels| && labels[k].Scheduled? ==> x.playAt <= labels[k].b.playAt
  }

  lemma AheadStep(labels: seq<Label>, i: nat, out: seq<Buffer>, s: Sched, target: int, s': Sched)
    requires i < |labels| && InOrder(labels) && Ahead(labels, i, out, s.queue) && Moves(s, target, labels[i], s')
    ensures Ahead(labels, i + 1, out + (if labels[i].Ticked? then labels[i].out else []), s'.queue)
  {
    hide InOrder, Ahead, Partition;
    match labels[i]
    case Scheduled(b) =>
      assert out + [] == out;
      AheadScheduled(labels, i, out, s.queue, b);
    case Ticked(now, o, late) =>
      if GateOpens(s, target) {
        AheadTick(s.queue, now, o, late, s'.queue);
        AheadEmits(labels, i, out, s.queue, o, s'.queue);
      } else {
        assert out + [] == out;
        AheadKeeps(labels, i, out, s.queue, s.queue);
      }
    case Cleared =>
      assert out + [] == out;
      AheadKeeps(labels, i, out, s.queue, s'.queue);
  }

  lemma AheadScheduled(labels: seq<Label>, i: nat, out: seq<Buffer>, q: multiset<Buffer>, b: Buffer)
    requires i < |labels| && InOrder(labels) && Ahead(labels, i, out, q) && labels[i] == Scheduled(b)
    ensures Ahead(labels, i + 1, out, q + multiset{b})
  {
    forall x | x in out || x in q + multiset{b} ensures NotAfterLater(labels, i + 1, x) {
      if x in out || x in q { assert NotAfterLater(labels, i, x); } else { assert x == b; }
    }
    forall x, y | x in out && y in q + multiset{b} ensures x.playAt <= y.playAt {
      assert NotAfterLater(labels, i, x);
      if y !in q { assert y == b; }
    }
  }

  lemma AheadKeeps(labels: seq<Label>, i: nat, out: seq<Buffer>, q: multiset<Buffer>, q': multiset<Buffer>)
    requires i < |labels| && Ahead(labels, i, out, q) && q' <= q
    ensures Ahead(labels, i + 1, out, q')
  {
    forall x | x in out || x in q' ensures NotAfterLater(labels, i + 1, x) { assert NotAfterLater(labels, i, x); }
  }

  lemma AheadEmits(labels: seq<Label>, i: nat, out: seq<Buffer>, q: multiset<Buffer>, o: seq<Buffer>,
                   q': multiset<Buffer>)
    requires i < |labels| && Ahead(labels, i, out, q) && Sorted(o)
    requires (forall x :: x in o || x in q' ==> x in q) && (forall x, y :: x in o && y in q' ==> x.playAt <= y.playAt)
    ensures Ahead(labels, i + 1, out + o, q')
  {
    SortedAppend(out, o);
    forall x | x in out + o || x in q' ensures NotAfterLater(labels, i + 1, x) { assert NotAfterLater(labels, i, x); }
  }

  lemma AheadTick(q: multiset<Buffer>, now: int, out: seq<Buffer>, late: seq<Buffer>, q': multiset<Buffer>)
    requires Partition(q, now, out, late, q')
    ensures Sorted(out)
    ensures forall x :: x in out || x in q' ==> x in q
    ensures forall x, y :: x in out && y in q' ==> x.playAt <= y.playAt
  {
    forall x | x in out ensures x in q { assert x in multiset(out); }
  }

  lemma SortedAppend(a: seq<Buffer>, b: seq<Buffer>)
    requires Sorted(a) && Sorted(b) && forall x, y :: x in a && y in b ==> x.playAt <= y.playAt
    ensures Sorted(a + b)
  {
    var c := a + b;
    forall i, j | 0 <= i < j < |c| ensures c[i].playAt <= c[j].playAt {
      if i < |a| <= j { assert c[i] in a && c[j] in b; }
    }
  }

  lemma {:induction false} RunAhead(target: int, states: seq<Sched>, labels: seq<Label>, i: nat)
    requires IsRun(target, states, labels) && InOrder(labels) && i <= |labels|
    ensures Ahead(labels, i, Emitted(labels[..i]), states[i].queue)
    decreases i
  {
    if i == 0 {
      assert labels[..0] == [];
    } else {
      RunAhead(target, states, labels, i - 1);
      assert labels[..i][..i - 1] == labels[..i - 1];
      AheadStep(labels, i - 1, Emitted(labels[..i - 1]), states[i - 1], target, states[i]);
    }
  }

  /** Over a whole run of buffers arriving in play order, all that is ever emitted comes out in play order. */
  lemma EmittedInOrder(target: int, states: seq<Sched>, labels: seq<Label>)
    requires IsRun(target, states, labels) && InOrder(labels)
    ensures Sorted(Emitted(labels))
  {
    RunAhead(target, states, labels, |labels|);
    assert labels[..|labels|] == labels;
  }

  /** Play times are what Schedule sets under one filter state, and the server's timestamps do not go back. */
  ghost predicate ServerFed(st: State, delay: int, platform: int, labels: seq<Label>) {
    && (forall i :: 0 <= i < |labels| && labels[i].Scheduled? ==>
        labels[i].b.playAt == LocalTime(Known(st), labels[i].b.timestamp, platform) + delay)
    && (forall i, j :: 0 <= i < j < |labels| && labels[i].Scheduled? && labels[j].Scheduled? ==>
        labels[i].b.timestamp <= labels[j].b.timestamp)
  }

  lemma {:induction false} EmittedWereScheduled(target: int, states: seq<Sched>, labels: seq<Label>, i: nat, b: Buffer)
    requires IsRun(target, states, labels) && i <= |labels|
    requires b in Emitted(labels[..i]) || b in states[i].queue
    ensures Scheduled(b) in labels
    decreases i
  {
    if i == 0 {
    } else {
      assert labels[..i][..i - 1] == labels[..i - 1];
      assert Moves(states[i - 1], target, labels[i - 1], states[i]);
      if labels[i - 1] != Scheduled(b) {
        hide Moves;
        if b !in Emitted(labels[..i - 1]) { WasThere(states[i - 1], target, labels[i - 1], states[i], b); }
        EmittedWereScheduled(target, states, labels, i - 1, b);
      }
    }
  }

  lemma WasThere(s: Sched, target: int, l: Label, s': Sched, b: Buffer)
    requires Moves(s, target, l, s') && l != Scheduled(b) && (b in s'.queue || (l.Ticked? && b in l.out))
    ensures b in s.queue
  {
    if l.Ticked? && GateOpens(s, target) { AheadTick(s.queue, l.now, l.out, l.late, s'.queue); }
  }

  /**
   For a filter that does not move: over a whole run, whatever the ticks and clears, buffers come out in the order of
   the server's timestamps, up to equal play times.
   */
  lemma ServerOrder(st: State, delay: int, platform: int, target: int, states: seq<Sched>, labels: seq<Label>, i: nat,
                    j: nat)
    requires EffectiveDrift(st) > -1.0 && st.count > 0
    requires IsRun(target, states, labels) && ServerFed(st, delay, platform, labels)
    requires i < j < |Emitted(labels)|
    ensures var out := Emitted(labels);
      && out[i].playAt <= out[j].playAt
      && (out[i].timestamp <= out[j].timestamp || out[i].playAt == out[j].playAt)
  {
    forall a, b | 0 <= a < b < |labels| && labels[a].Scheduled? && labels[b].Scheduled?
      ensures labels[a].b.playAt <= labels[b].b.playAt
    {
      LocalTimeMonotone(st, labels[a].b.timestamp, labels[b].b.timestamp, platform);
    }
    EmittedInOrder(target, states, labels);
    var out := Emitted(labels);
    assert labels[..|labels|] == labels && out[i] in out && out[j] in out;
    EmittedWereScheduled(target, states, labels, |labels|, out[i]);
    EmittedWereScheduled(target, states, labels, |labels|, out[j]);
    if out[j].timestamp < out[i].timestamp {
      LocalTimeMonotone(st, out[j].timestamp, out[i].timestamp, platform);
    }
  }
}
