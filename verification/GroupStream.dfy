/**
 What one subscriber of the event bus sees of the log: every queued event, at the place the losses before it leave it.
 */
module GroupStreams {
  import opened Options
  import opened Groups

  /** Everything a subscriber has taken out, and what it will take out next. */
  function Stream(c: Chan): seq<Event> { c.received + c.queue }

  /** Number k of the events published since a subscription is the client's leave. */
  predicate LeaveAt(log: seq<Event>, since: nat, k: nat, id: string) {
    since + k < |log| && LeaveOf(log[since + k], id)
  }

  lemma {:induction false} QueuedGrows(keep: seq<bool>, i: nat, j: nat)
    requires i < j <= |keep|
    ensures Queued(keep[..i]) + (if keep[i] then 1 else 0) <= Queued(keep[..j])
    decreases j
  {
    assert keep[..j][..j - 1] == keep[..j - 1];
    if i < j - 1 { QueuedGrows(keep, i, j - 1); }
  }

  lemma {:induction false} SelectAt(s: seq<Event>, keep: seq<bool>, k: nat)
    requires |s| == |keep| && k < |keep| && keep[k]
    ensures Queued(keep[..k]) < |Select(s, keep)| && Select(s, keep)[Queued(keep[..k])] == s[k]
    decreases |s|
  {
    var n := |s| - 1;
    if k == n {
      QueuedIs(s[..n], keep[..n]);
    } else {
      SelectAt(s[..n], keep[..n], k);
      assert keep[..n][..k] == keep[..k];
    }
  }

  lemma {:induction false} SelectFrom(s: seq<Event>, keep: seq<bool>, m: nat) returns (k: nat)
    requires |s| == |keep| && m < |Select(s, keep)|
    ensures k < |keep| && keep[k] && Queued(keep[..k]) == m
    decreases |s|
  {
    var n := |s| - 1;
    QueuedIs(s[..n], keep[..n]);
    if m < |Select(s[..n], keep[..n])| {
      k := SelectFrom(s[..n], keep[..n], m);
      assert keep[..n][..k] == keep[..k];
    } else {
      k := n;
    }
  }

  /** Place m of a stream is taken by one queued event of the log, the one before which m others were queued. */
  lemma StreamIsLog(g: State, i: nat, m: nat) returns (k: nat)
    requires Inv(g) && i in g.channels && m < |Stream(g.channels[i])|
    ensures var c := g.channels[i];
      k < |c.fate| && c.since + k < |g.log| && c.fate[k] && Queued(c.fate[..k]) == m
      && Stream(c)[m] == g.log[c.since + k]
  {
    hide Select, Queued, Alternates, Chains, Present, PlaybackAfter, ChanInv;
    ChanStream(g, i);
    var c := g.channels[i];
    var events := g.log[c.since..c.since + |c.fate|];
    k := SelectFrom(events, c.fate, m);
    SelectAt(events, c.fate, k);
  }

  lemma LogInStream(g: State, i: nat, k: nat)
    requires Inv(g) && i in g.channels && k < |g.channels[i].fate| && g.channels[i].fate[k]
    ensures var c := g.channels[i]; var m := Queued(c.fate[..k]);
      c.since + k < |g.log| && m < |Stream(c)| && Stream(c)[m] == g.log[c.since + k]
  {
    hide Select, Queued, Alternates, Chains, Present, PlaybackAfter, ChanInv;
    ChanStream(g, i);
    var c := g.channels[i];
    SelectAt(g.log[c.since..c.since + |c.fate|], c.fate, k);
  }

  /**
   Two joins of one client that a subscriber was sent, as number x and number y published since it subscribed. The
   client's leave was published in between, at least once; and the subscriber's stream shows no leave between the two
   joins if and only if every one of those leaves was lost to it.
   */
  lemma StreamAlternates(g: State, i: nat, x: nat, y: nat, id: string)
    requires Inv(g) && i in g.channels && x < y < |g.channels[i].fate|
    requires g.channels[i].fate[x] && g.channels[i].fate[y] && g.channels[i].since + y < |g.log|
    requires JoinOf(g.log[g.channels[i].since + x], id) && JoinOf(g.log[g.channels[i].since + y], id)
    ensures var c := g.channels[i]; var s, a, b := Stream(c), Queued(c.fate[..x]), Queued(c.fate[..y]);
      && a < b < |s| && JoinOf(s[a], id) && JoinOf(s[b], id)
      && (exists k :: x < k < y && LeaveAt(g.log, c.since, k, id))
      && ((forall m :: a < m < b ==> !LeaveOf(s[m], id)) <==>
          (forall k :: x < k < y && LeaveAt(g.log, c.since, k, id) ==> !c.fate[k]))
  {
    hide Select, Queued, Alternates, Chains, Present, PlaybackAfter, ChanInv, Stream;
    var c := g.channels[i];
    var s, a, b := Stream(c), Queued(c.fate[..x]), Queued(c.fate[..y]);
    LogInStream(g, i, x);
    LogInStream(g, i, y);
    QueuedGrows(c.fate, x, y);
    LeaveBetween(g.log, c.since, x, y, id);
    forall k | x < k < y && c.fate[k]
      ensures a < Queued(c.fate[..k]) < b
      ensures LeaveOf(s[Queued(c.fate[..k])], id) <==> LeaveAt(g.log, c.since, k, id)
    {
      LogInStream(g, i, k);
      QueuedGrows(c.fate, x, k);
      QueuedGrows(c.fate, k, y);
    }
    if forall k :: x < k < y && LeaveAt(g.log, c.since, k, id) ==> !c.fate[k] {
      forall m | a < m < b ensures !LeaveOf(s[m], id) {
        var k := StreamIsLog(g, i, m);
        if k <= x { QueuedNotMore(c.fate, k, x); }
        if y <= k { QueuedNotMore(c.fate, y, k); }
        assert x < k < y && c.fate[k] && !LeaveAt(g.log, c.since, k, id);
      }
    }
  }

  lemma LeaveBetween(log: seq<Event>, since: nat, x: nat, y: nat, id: string)
    requires Alternates(log) && x < y && since + y < |log|
    requires JoinOf(log[since + x], id) && JoinOf(log[since + y], id)
    ensures exists k :: x < k < y && LeaveAt(log, since, k, id)
  {
    hide Alternates;
    AlternatesMeans(log, since + x, since + y, id);
    var k :| since + x < k < since + y && LeaveOf(log[k], id);
    assert LeaveAt(log, since, k - since, id);
  }

  lemma QueuedNotMore(keep: seq<bool>, i: nat, j: nat)
    requires i <= j <= |keep|
    ensures Queued(keep[..i]) <= Queued(keep[..j])
  {
    if i < j { QueuedGrows(keep, i, j); }
  }

  // ---------------------------------------------------------------- a lost leave

  function Copies<T>(x: T, n: nat): seq<T> { seq(n, _ => x) }

  /** The role dispatcher falls behind: the client's leave is published while 32 events wait. */
  function FallBehind(c: Client, e: Event): seq<Op> {
    [RegisterRole("player"), AddClient(c)] + Copies(Publish(e), 31) + [RemoveClient(c), Receive(0), AddClient(c)]
  }

  /** One open subscriber, the dispatcher, with these events waiting and these taken out. */
  ghost predicate Waiting(g: State, q: seq<Event>, r: seq<Event>) {
    && !g.closed && g.subs == {0} && g.channels.Keys == {0} && g.dispatcher == Some(0)
    && g.channels[0].queue == q && g.channels[0].received == r
  }

  lemma Published0(g: State, q: seq<Event>, r: seq<Event>, e: Event)
    requires Waiting(g, q, r)
    ensures Waiting(Published(g, e), if |q| < CAPACITY then q + [e] else q, r) && Published(g, e).clients == g.clients
  {
  }

  lemma OneMore(g: State, q: seq<Event>, e: Event)
    requires Waiting(g, q, []) && |q| < CAPACITY && e.StateChanged?
    ensures Waiting(Step(g, Publish(e)), q + [e], []) && Step(g, Publish(e)).clients == g.clients
  {
    Published0(g, q, [], e);
    hide Waiting, Published;
  }

  lemma {:induction false} Fill(g: State, q: seq<Event>, e: Event, n: nat, rest: seq<Op>) returns (h: State)
    requires Inv(g) && Waiting(g, q, []) && |q| + n <= CAPACITY && e.StateChanged?
    requires forall i :: 0 <= i < |rest| ==> Allowed(rest[i])
    ensures Inv(h) && Waiting(h, q + Copies(e, n), []) && h.clients == g.clients
    ensures forall i :: 0 <= i < n + |rest| ==> Allowed((Copies(Publish(e), n) + rest)[i])
    ensures Run(g, Copies(Publish(e), n) + rest) == Run(h, rest)
    decreases n
  {
    hide Inv, Waiting, Step;
    if n == 0 {
      assert Copies(Publish(e), 0) + rest == rest && q + Copies(e, 0) == q;
      h := g;
    } else {
      var ops := Copies(Publish(e), n) + rest;
      assert ops[0] == Publish(e) && ops[1..] == Copies(Publish(e), n - 1) + rest;
      StepInv(g, Publish(e));
      WaitingSubs(g, q);
      OneMore(g, q, e);
      h := Fill(Step(g, Publish(e)), q + [e], e, n - 1, rest);
      assert q + [e] + Copies(e, n - 1) == q + Copies(e, n);
    }
  }

  lemma WaitingSubs(g: State, q: seq<Event>)
    requires Waiting(g, q, [])
    ensures g.subs <= g.channels.Keys
  {
  }

  lemma Leaves(g: State, q: seq<Event>, c: Client)
    requires Waiting(g, q, []) && |q| == CAPACITY && g.clients == map[c.id := c]
    ensures var h := Step(g, RemoveClient(c)); Waiting(h, q, []) && h.clients == map[]
  {
    var h := g.(clients := g.clients - {c.id});
    assert Waiting(h, q, []) && h.clients == map[];
    Published0(h, q, [], Left(c.id, c.name));
    hide Waiting, Published;
  }

  lemma Takes(g: State, q: seq<Event>)
    requires Waiting(g, q, []) && q != [] && g.clients == map[]
    ensures var h := Step(g, Receive(0)); Waiting(h, q[1..], [q[0]]) && h.clients == map[]
  {
  }

  lemma Joins(g: State, q: seq<Event>, r: seq<Event>, c: Client)
    requires Waiting(g, q, r) && |q| < CAPACITY && g.clients == map[]
    ensures Waiting(Step(g, AddClient(c)), q + [Joined(c)], r) && Step(g, AddClient(c)).clients == map[c.id := c]
  {
    var h := g.(clients := g.clients[c.id := c]);
    assert !g.closed && c.id !in g.clients && Waiting(h, q, r);
    Published0(h, q, r, Joined(c));
    hide Waiting, Published;
  }

  lemma Registered()
    ensures Inv(NEW) && NEW.subs <= NEW.channels.Keys
    ensures var g := Step(NEW, RegisterRole("player")); Inv(g) && Waiting(g, [], []) && g.clients == map[]
  {
    NewInv();
    StepInv(NEW, RegisterRole("player"));
    hide Inv;
  }

  lemma RunNext(g: State, ops: seq<Op>)
    requires Inv(g) && ops != [] && forall i :: 0 <= i < |ops| ==> Allowed(ops[i])
    ensures g.subs <= g.channels.Keys && Inv(Step(g, ops[0])) && Run(g, ops) == Run(Step(g, ops[0]), ops[1..])
  {
    StepInv(g, ops[0]);
    hide Inv, Step;
  }

  /** So the dispatcher can announce the same client to the roles twice without its leave in between. */
  lemma DispatcherJoinsTwice(c: Client, e: Event)
    requires e.StateChanged?
    ensures Inv(NEW) && forall i :: 0 <= i < |FallBehind(c, e)| ==> Allowed(FallBehind(c, e)[i])
    ensures var g := Run(NEW, FallBehind(c, e));
      && g.dispatcher == Some(0) && 0 in g.channels
      && var s := Stream(g.channels[0]);
      && |s| == 33 && JoinOf(s[0], c.id) && JoinOf(s[32], c.id) && forall m :: 0 < m < 32 ==> !LeaveOf(s[m], c.id)
  {
    hide Inv, Step, Waiting;
    Registered();
    var g1 := Step(NEW, RegisterRole("player"));
    var last := [RemoveClient(c), Receive(0), AddClient(c)];
    var tail := Copies(Publish(e), 31) + last;
    var ops := [RegisterRole("player"), AddClient(c)] + tail;
    assert FallBehind(c, e) == ops;
    RunNext(NEW, ops);
    assert ops[1..] == [AddClient(c)] + tail && ops[1..][1..] == tail;
    RunNext(g1, ops[1..]);
    Joins(g1, [], [], c);
    var g2 := Step(g1, AddClient(c));
    var q := [] + [Joined(c)] + Copies(e, 31);
    var h := Fill(g2, [] + [Joined(c)], e, 31, last);
    var h' := FallsBehind(h, q, c, last);
    assert Run(NEW, ops) == h';
  }

  lemma FallsBehind(h: State, q: seq<Event>, c: Client, ops: seq<Op>) returns (g: State)
    requires Inv(h) && Waiting(h, q, []) && h.clients == map[c.id := c] && |q| == CAPACITY
    requires ops == [RemoveClient(c), Receive(0), AddClient(c)] && forall i :: 0 <= i < |ops| ==> Allowed(ops[i])
    ensures g == Run(h, ops)
    ensures g.dispatcher == Some(0) && 0 in g.channels && Stream(g.channels[0]) == q + [Joined(c)]
  {
    hide Inv, Step, Waiting;
    RunNext(h, ops);
    Leaves(h, q, c);
    var h1 := Step(h, ops[0]);
    assert ops[1..] == [Receive(0), AddClient(c)];
    RunNext(h1, ops[1..]);
    Takes(h1, q);
    var h2 := Step(h1, ops[1]);
    assert ops[1..][1..] == [AddClient(c)];
    RunNext(h2, [AddClient(c)]);
    Joins(h2, q[1..], [q[0]], c);
    g := Step(h2, AddClient(c));
    assert [AddClient(c)][1..] == [] && Run(g, []) == g;
    WaitingIs(g, q[1..] + [Joined(c)], [q[0]]);
  }

  lemma WaitingIs(g: State, q: seq<Event>, r: seq<Event>)
    requires Waiting(g, q, r)
    ensures g.dispatcher == Some(0) && 0 in g.channels && Stream(g.channels[0]) == r + q
  {
  }
}
