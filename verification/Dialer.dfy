/** The discovery dialer of pkg/sendspin/client_dialer.go. */
module Dialers {
  import opened Numbers
  import opened Options

  // ---------------------------------------------------------------- backoff in int64

  const SECOND: int := 1_000_000_000

  /** 1 << n in int64. */
  function ShiftOne(n: nat): int { if n >= 64 then 0 else Wrap64(Pow2(n)) }

  /** The wait after `failures` failures in a row, as release computes it. */
  function Backoff(base: int, max: int, failures: nat): int
    requires failures >= 1
  {
    var b := Wrap64(base * ShiftOne(failures - 1));
    if b > max || b <= 0 then max else b
  }

  lemma Pow2Values()
    ensures Pow2(5) == 32 && Pow2(9) == 512 && Pow2(43) == 8_796_093_022_208 && Pow2(33) == 8_589_934_592
    ensures Pow2(63) == TWO_63 && Pow2(64) == TWO_64
  {
    Pow2Doubles(8); Pow2Doubles(16); Pow2Doubles(32);
    Pow2Add(32, 1); Pow2Add(32, 11); Pow2Add(8, 3); Pow2Add(64, 0);
    assert Pow2(64) == 2 * Pow2(63);
  }

  lemma Pow2Doubles(n: nat)
    requires n == 8 || n == 16 || n == 32
    ensures Pow2(8) == 256
    ensures n >= 16 ==> Pow2(16) == 65536
    ensures n == 32 ==> Pow2(32) == 0x1_0000_0000 && Pow2(64) == TWO_64
  {
    assert Pow2(1) == 2;
    hide Pow2;
    Pow2Add(1, 1); Pow2Add(2, 2); Pow2Add(4, 4); Pow2Add(8, 8); Pow2Add(16, 16); Pow2Add(32, 32);
  }

  /** Wrapping keeps divisibility by a power of two; a positive multiple is at least that power. */
  lemma WrapMultiple(k: int, d: int, e: int)
    requires d > 0 && e > 0 && d * e == TWO_64
    ensures Wrap64(k * d) > 0 ==> Wrap64(k * d) >= d
  {
    var x := k * d;
    var q := (x + TWO_63) / TWO_64;
    assert Wrap64(x) == x - q * TWO_64;
    assert q * TWO_64 == (q * e) * d;
    assert Wrap64(x) == (k - q * e) * d by { assert (k - q * e) * d == k * d - (q * e) * d; }
    var m := k - q * e;
    if m * d > 0 {
      AtLeastOne(m, d);
      assert (m - 1) * d >= 0;
    }
  }

  lemma AtLeastOne(m: int, d: int)
    requires d > 0 && m * d > 0
    ensures m >= 1
  {
  }

  /**
   The default one second and thirty seconds: the wrapped arithmetic gives min(2^(f-1) s, 30 s) for every
   failure count, although shift and product overflow from the 35th failure on. One second is 2^9 * 5^9
   nanoseconds, so an overflowed product that comes out positive is still at least 2^43, over two hours.
   */
  lemma DefaultBackoff(f: nat)
    requires f >= 1
    ensures Backoff(SECOND, 30 * SECOND, f) == if Pow2(f - 1) <= 30 then SECOND * Pow2(f - 1) else 30 * SECOND
  {
    var s := f - 1;
    Pow2Values();
    if s <= 33 {
      Pow2Monotone(s, 33);
      assert SECOND * Pow2(s) <= SECOND * Pow2(33);
    } else if s < 64 {
      Pow2Monotone(5, s);
      Overflowing(s);
    } else {
      Pow2Monotone(5, s);
    }
  }

  lemma Overflowing(s: nat)
    requires 34 <= s < 64
    ensures var b := Wrap64(SECOND * ShiftOne(s)); b <= 0 || b > 30 * SECOND
  {
    Pow2Values();
    Pow2Add(43, 21);
    Pow2Add(34, s - 34);
    Pow2Add(9, 34);
    var t: int := Pow2(s - 34);
    var k: int := if s < 63 then 1_953_125 * t else 0 - 1_953_125 * t;
    if s < 63 {
      Pow2Monotone(s, 62);
      assert Pow2(63) == 2 * Pow2(62);
      assert ShiftOne(s) == Pow2(34) * t;
    } else {
      assert ShiftOne(s) == -(Pow2(34) * t);
    }
    assert SECOND * ShiftOne(s) == k * Pow2(43) by {
      assert SECOND == 1_953_125 * Pow2(9);
      Factors(1_953_125, Pow2(9), Pow2(34), t);
    }
    WrapMultiple(k, Pow2(43), Pow2(21));
  }

  lemma Factors(a: int, b: int, c: int, t: int)
    ensures (a * b) * (c * t) == (a * t) * (b * c)
  {
  }

  // ---------------------------------------------------------------- claim and release

  /** What a dial comes back with: a nil error, the client's restart request, or any other error. */
  datatype Result = Nil | Restart | Failed

  datatype Dialer = Dialer(active: set<string>, cooldown: map<string, int>, failures: map<string, nat>)

  datatype Limits = Limits(base: int, max: int)

  predicate CanClaim(d: Dialer, instance: string, now: int) {
    instance !in d.active && (instance in d.cooldown ==> now >= d.cooldown[instance])
  }

  function FailureCount(d: Dialer, instance: string): nat {
    if instance in d.failures then d.failures[instance] else 0
  }

  function Released(l: Limits, d: Dialer, instance: string, r: Result, now: int): Dialer {
    match r
    case Nil => Dialer(d.active, d.cooldown - {instance}, d.failures - {instance})
    case Restart => Dialer(d.active - {instance}, d.cooldown - {instance}, d.failures - {instance})
    case Failed =>
      var f := FailureCount(d, instance) + 1;
      Dialer(d.active - {instance}, d.cooldown[instance := now + Backoff(l.base, l.max, f)], d.failures[instance := f])
  }

  class ClientDialer {
    const limits: Limits
    var active: set<string>
    var cooldown: map<string, int>
    var failures: map<string, nat>

    ghost function View(): Dialer
      reads this
    {
      Dialer(active, cooldown, failures)
    }

    constructor ()
      ensures View() == Dialer({}, map[], map[]) && limits == Limits(SECOND, 30 * SECOND)
    {
      limits := Limits(SECOND, 30 * SECOND);
      active, cooldown, failures := {}, map[], map[];
    }

    method Claim(instance: string, now: int) returns (ok: bool)
      modifies this
      ensures ok <==> CanClaim(old(View()), instance, now)
      ensures View() == if ok then old(View()).(active := old(active) + {instance}) else old(View())
    {
      if instance in active { return false; }
      if instance in cooldown && now < cooldown[instance] { return false; }
      active := active + {instance};
      ok := true;
    }

    method Release(instance: string, r: Result, now: int)
      modifies this
      ensures View() == Released(limits, old(View()), instance, r, now)
    {
      if r == Nil {
        failures := failures - {instance};
        cooldown := cooldown - {instance};
        return;
      }
      if r == Restart {
        active := active - {instance};
        failures := failures - {instance};
        cooldown := cooldown - {instance};
        return;
      }
      active := active - {instance};
      failures := failures[instance := (if instance in failures then failures[instance] else 0) + 1];
      var backoff := Wrap64(limits.base * ShiftOne(failures[instance] - 1));
      if backoff > limits.max || backoff <= 0 { backoff := limits.max; }
      cooldown := cooldown[instance := now + backoff];
    }
  }

  // ---------------------------------------------------------------- run as steps

  /** What an observer of the dial function sees. */
  datatype Entry = Start(instance: string, at: int) | End(instance: string, r: Result, at: int)

  /** Discover: an advertisement arrives. Complete: the dial in flight for the instance returns. */
  datatype Event = Discover(instance: string, now: int) | Complete(instance: string, r: Result, now: int)

  datatype System = System(d: Dialer, log: seq<Entry>)

  /** The instance's most recent entry. */
  function Last(log: seq<Entry>, i: string): Option<Entry> {
    if log == [] then None
    else if log[|log| - 1].instance == i then Some(log[|log| - 1])
    else Last(log[..|log| - 1], i)
  }

  /** How many of the instance's most recent dials failed in a row. */
  function Streak(log: seq<Entry>, i: string): nat {
    if log == [] then 0
    else
      var e, before := log[|log| - 1], log[..|log| - 1];
      if e.instance != i || e.Start? then Streak(before, i)
      else if e.r == Failed then Streak(before, i) + 1 else 0
  }

  /** Dials begun and not yet returned. */
  function InFlight(log: seq<Entry>, i: string): int {
    if log == [] then 0
    else
      var e, before := log[|log| - 1], log[..|log| - 1];
      InFlight(before, i) + if e.instance != i then 0 else if e.Start? then 1 else -1
  }

  predicate Enabled(s: System, ev: Event) { ev.Complete? ==> InFlight(s.log, ev.instance) > 0 }

  function Step(l: Limits, s: System, ev: Event): System {
    match ev
    case Discover(i, now) =>
      if CanClaim(s.d, i, now) then System(s.d.(active := s.d.active + {i}), s.log + [Start(i, now)]) else s
    case Complete(i, r, now) =>
      System(Released(l, s.d, i, r, now), s.log + [End(i, r, now)])
  }

  predicate RunEnabled(l: Limits, s: System, evs: seq<Event>)
    decreases |evs|
  {
    evs == [] || (Enabled(s, evs[0]) && RunEnabled(l, Step(l, s, evs[0]), evs[1..]))
  }

  function Run(l: Limits, s: System, evs: seq<Event>): System
    decreases |evs|
  {
    if evs == [] then s else Run(l, Step(l, s, evs[0]), evs[1..])
  }

  const IDLE := System(Dialer({}, map[], map[]), [])

  /**
   When a dial may start, in terms of history alone: never while one is in flight or after a nil result, at once
   after a restart, and after k failures in a row not before the last return plus the k-th backoff.
   */
  predicate MayStart(l: Limits, log: seq<Entry>, i: string, at: int) {
    match Last(log, i)
    case None => true
    case Some(Start(_, _)) => false
    case Some(End(_, Nil, _)) => false
    case Some(End(_, Restart, _)) => true
    case Some(End(_, Failed, t)) => Streak(log, i) >= 1 && at >= t + Backoff(l.base, l.max, Streak(log, i))
  }

  /** The dialer's maps as functions of the log. */
  ghost predicate Agrees(l: Limits, s: System, i: string) {
    && FailureCount(s.d, i) == Streak(s.log, i)
    && InFlight(s.log, i) == (if Last(s.log, i).Some? && Last(s.log, i).value.Start? then 1 else 0)
    && match Last(s.log, i)
       case None => i !in s.d.active && i !in s.d.cooldown
       case Some(Start(_, _)) => i in s.d.active
       case Some(End(_, Nil, _)) => i in s.d.active
       case Some(End(_, Restart, _)) => i !in s.d.active && i !in s.d.cooldown
       case Some(End(_, Failed, t)) =>
         Streak(s.log, i) >= 1 && i !in s.d.active && i in s.d.cooldown
         && s.d.cooldown[i] == t + Backoff(l.base, l.max, Streak(s.log, i))
  }

  lemma StepAgrees(l: Limits, s: System, ev: Event, i: string)
    requires Enabled(s, ev) && Agrees(l, s, i) && Agrees(l, s, ev.instance)
    ensures Agrees(l, Step(l, s, ev), i)
  {
    var n := Step(l, s, ev);
    if n.log != s.log {
      assert n.log[..|n.log| - 1] == s.log;
    }
  }

  /** An advertisement starts a dial exactly when the history allows it. */
  lemma ClaimIff(l: Limits, s: System, i: string, now: int)
    requires Agrees(l, s, i)
    ensures CanClaim(s.d, i, now) <==> MayStart(l, s.log, i, now)
  {
  }

  /** Every dial of the log started when the history before it allowed it, and every return answers a dial. */
  ghost predicate SafeLog(l: Limits, log: seq<Entry>) {
    forall k :: 0 <= k < |log| ==>
      if log[k].Start? then MayStart(l, log[..k], log[k].instance, log[k].at)
      else Last(log[..k], log[k].instance).Some? && Last(log[..k], log[k].instance).value.Start?
  }

  lemma StepSafe(l: Limits, s: System, ev: Event)
    requires Enabled(s, ev) && Agrees(l, s, ev.instance) && SafeLog(l, s.log)
    ensures SafeLog(l, Step(l, s, ev).log)
  {
    var n := Step(l, s, ev);
    ClaimIff(l, s, ev.instance, ev.now);
    forall k | 0 <= k < |n.log|
      ensures if n.log[k].Start? then MayStart(l, n.log[..k], n.log[k].instance, n.log[k].at)
        else Last(n.log[..k], n.log[k].instance).Some? && Last(n.log[..k], n.log[k].instance).value.Start?
    {
      assert n.log[..k] == s.log[..k];
      if k == |s.log| { assert s.log[..k] == s.log; }
    }
  }

  /**
   Main result: over every run, with clocks that may go anywhere, the log is safe and at most one dial is in flight.
   */
  lemma {:induction false} RunSafe(l: Limits, s: System, evs: seq<Event>)
    requires RunEnabled(l, s, evs) && SafeLog(l, s.log) && forall i :: Agrees(l, s, i)
    ensures SafeLog(l, Run(l, s, evs).log)
    ensures forall i :: Agrees(l, Run(l, s, evs), i) && 0 <= InFlight(Run(l, s, evs).log, i) <= 1
    decreases |evs|
  {
    if evs == [] {
    } else {
      var n := Step(l, s, evs[0]);
      forall i ensures Agrees(l, n, i) { StepAgrees(l, s, evs[0], i); }
      StepSafe(l, s, evs[0]);
      RunSafe(l, n, evs[1..]);
    }
  }

  lemma DialsAreSafe(l: Limits, evs: seq<Event>)
    requires RunEnabled(l, IDLE, evs)
    ensures SafeLog(l, Run(l, IDLE, evs).log)
  {
    assert forall i :: Agrees(l, IDLE, i);
    RunSafe(l, IDLE, evs);
  }

  /** A nil result latches the instance: no later dial, however the run continues. */
  lemma {:induction false} LatchedForever(l: Limits, log: seq<Entry>, i: string, j: nat, k: nat)
    requires SafeLog(l, log) && j < k <= |log| && log[j].End? && log[j].instance == i && log[j].r == Nil
    ensures Last(log[..k], i) == Some(log[j])
    ensures k < |log| && log[k].instance == i ==> false
    decreases k
  {
    assert log[..k][..k - 1] == log[..k - 1];
    if k - 1 > j { LatchedForever(l, log, i, j, k - 1); }
  }

  /** Spelled out for the default limits: a dial after f failures in a row waits min(2^(f-1), 30) seconds. */
  lemma DefaultWait(log: seq<Entry>, k: nat)
    requires SafeLog(Limits(SECOND, 30 * SECOND), log) && k < |log| && log[k].Start?
    requires Streak(log[..k], log[k].instance) >= 1
    ensures var last, f := Last(log[..k], log[k].instance), Streak(log[..k], log[k].instance);
      && last.Some? && last.value.End? && last.value.r == Failed
      && log[k].at >= last.value.at + SECOND * Min(Pow2(f - 1), 30)
  {
    var i := log[k].instance;
    DefaultBackoff(Streak(log[..k], i));
    StreakEndsInFailure(log[..k], i);
  }

  /** A streak is the work of the last result. */
  lemma {:induction false} StreakEndsInFailure(log: seq<Entry>, i: string)
    ensures Last(log, i).None? ==> Streak(log, i) == 0
    ensures Last(log, i).Some? && Last(log, i).value.End? && Last(log, i).value.r != Failed ==> Streak(log, i) == 0
  {
    if log == [] {
    } else {
      StreakEndsInFailure(log[..|log| - 1], i);
    }
  }
}
