/** Whole runs of the scheduler: what its window, its gate, its counters and its Clear come to. */
module SchedulerRuns {
  import opened Numbers
  import opened Schedulers

  /** The window in nanoseconds: 50 ms to either side, both ends played. */
  lemma WindowMeans(b: Buffer, now: int)
    ensures Due(b, now) <==> now - 50_000_000 <= b.playAt <= now + 50_000_000
    ensures Late(b, now) <==> b.playAt < now - 50_000_000
    ensures Early(b, now) <==> now + 50_000_000 < b.playAt
  {
  }

  // ---------------------------------------------------------------- the gate

  /** Once opened, the gate stays open until a Clear. */
  lemma {:induction false} OpenedStays(target: int, states: seq<Sched>, labels: seq<Label>, j: nat, i: nat)
    requires IsRun(target, states, labels) && i <= |labels| && OpenedAt(target, states, labels, j, i)
    ensures !states[i].buffering
    decreases i
  {
    assert Moves(states[i - 1], target, labels[i - 1], states[i]);
    if j < i - 1 { OpenedStays(target, states, labels, j, i - 1); }
  }

  /**
   A tick empties the queue of everything late and due if and only if it, or an earlier one since the last Clear, saw
   the startup target; otherwise it changes nothing.
   */
  lemma GateIff(target: int, states: seq<Sched>, labels: seq<Label>, i: nat)
    requires IsRun(target, states, labels) && i < |labels| && labels[i].Ticked?
    ensures var l, s, n := labels[i], states[i], states[i + 1];
      if Opened(target, states, labels, i + 1) then Partition(s.queue, l.now, l.out, l.late, n.queue) && !n.buffering
      else l.out == [] && l.late == [] && n == s && s.buffering
  {
    hide Partition, Opened;
    assert Moves(states[i], target, labels[i], states[i + 1]);
    OpenedNext(target, states, labels, i);
    GateInvariant(target, states, labels, i);
    OpenedIsOpen(target, states, labels, i);
  }

  lemma OpenedNext(target: int, states: seq<Sched>, labels: seq<Label>, i: nat)
    requires IsRun(target, states, labels) && i < |labels| && labels[i].Ticked?
    ensures Opened(target, states, labels, i + 1) <==> Opened(target, states, labels, i) || |states[i].queue| >= target
  {
    if Opened(target, states, labels, i) {
      var j: nat :| OpenedAt(target, states, labels, j, i);
      assert OpenedAt(target, states, labels, j, i + 1);
    }
    if |states[i].queue| >= target { assert OpenedAt(target, states, labels, i, i + 1); }
    if Opened(target, states, labels, i + 1) {
      var j: nat :| OpenedAt(target, states, labels, j, i + 1);
      assert j < i ==> OpenedAt(target, states, labels, j, i);
    }
  }

  lemma OpenedIsOpen(target: int, states: seq<Sched>, labels: seq<Label>, i: nat)
    requires IsRun(target, states, labels) && i <= |labels|
    ensures Opened(target, states, labels, i) ==> !states[i].buffering
  {
    if Opened(target, states, labels, i) {
      var j: nat :| OpenedAt(target, states, labels, j, i);
      OpenedStays(target, states, labels, j, i);
    }
  }

  // ---------------------------------------------------------------- the counters

  /** Everything a run was given. */
  function Arrived(labels: seq<Label>): seq<Buffer> {
    if labels == [] then []
    else Arrived(labels[..|labels| - 1]) + if labels[|labels| - 1].Scheduled? then [labels[|labels| - 1].b] else []
  }

  /** Everything it dropped. */
  function Dropped(labels: seq<Label>): seq<Buffer> {
    if labels == [] then []
    else Dropped(labels[..|labels| - 1]) + if labels[|labels| - 1].Ticked? then labels[|labels| - 1].late else []
  }

  lemma CountersStep(s: Sched, target: int, l: Label, n: Sched, past: seq<Label>)
    requires Moves(s, target, l, n)
    ensures n.received - s.received == |Arrived(past + [l])| - |Arrived(past)|
    ensures n.played - s.played == |Emitted(past + [l])| - |Emitted(past)|
    ensures n.dropped - s.dropped == |Dropped(past + [l])| - |Dropped(past)|
  {
    hide Partition;
    assert (past + [l])[..|past|] == past;
  }

  /** Each counter counts its own. */
  lemma {:induction false} CountersCount(target: int, states: seq<Sched>, labels: seq<Label>, i: nat)
    requires IsRun(target, states, labels) && i <= |labels|
    ensures var s, past := states[i], labels[..i];
      s.received == |Arrived(past)| && s.played == |Emitted(past)| && s.dropped == |Dropped(past)|
    decreases i
  {
    if i == 0 {
      assert labels[..0] == [];
    } else {
      CountersCount(target, states, labels, i - 1);
      assert labels[..i] == labels[..i - 1] + [labels[i - 1]];
      assert Moves(states[i - 1], target, labels[i - 1], states[i]);
      hide Moves, Arrived, Emitted, Dropped, IsRun;
      CountersStep(states[i - 1], target, labels[i - 1], states[i], labels[..i - 1]);
    }
  }

  // ---------------------------------------------------------------- Clear

  /** Scheduled before i, and not cleared since. */
  ghost predicate Standing(labels: seq<Label>, i: nat, b: Buffer)
    requires i <= |labels|
  {
    exists j: nat :: StandsFrom(labels, j, i, b)
  }

  ghost predicate StandsFrom(labels: seq<Label>, j: nat, i: nat, b: Buffer)
    requires i <= |labels|
  {
    j < i && labels[j] == Scheduled(b) && forall k :: j < k < i ==> !labels[k].Cleared?
  }

  lemma {:induction false} QueuedStands(target: int, states: seq<Sched>, labels: seq<Label>, i: nat, b: Buffer)
    requires IsRun(target, states, labels) && i <= |labels| && b in states[i].queue
    ensures Standing(labels, i, b)
    decreases i
  {
    if i == 0 {
    } else {
      assert Moves(states[i - 1], target, labels[i - 1], states[i]);
      if labels[i - 1] == Scheduled(b) {
        assert StandsFrom(labels, i - 1, i, b);
      } else {
        assert !labels[i - 1].Cleared?;
        WasThere(states[i - 1], target, labels[i - 1], states[i], b);
        QueuedStands(target, states, labels, i - 1, b);
        var j: nat :| StandsFrom(labels, j, i - 1, b);
        assert StandsFrom(labels, j, i, b);
      }
    }
  }

  /** What a tick plays was scheduled since the last Clear: a seek never plays what came before it. */
  lemma PlayedStands(target: int, states: seq<Sched>, labels: seq<Label>, i: nat, b: Buffer)
    requires IsRun(target, states, labels) && i < |labels| && labels[i].Ticked? && b in labels[i].out
    ensures Standing(labels, i, b)
  {
    assert Moves(states[i], target, labels[i], states[i + 1]);
    WasThere(states[i], target, labels[i], states[i + 1], b);
    QueuedStands(target, states, labels, i, b);
  }
}
