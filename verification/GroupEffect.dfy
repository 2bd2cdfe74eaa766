/** What each operation of the event bus achieves, in terms of the log and of the channels. */
module GroupEffects {
  import opened Options
  import opened Groups

  /** Who is present and what is playing follows the operations, while the group is open. */
  lemma OpenEffects(g: State, c: Client, s: string)
    requires Inv(g) && !g.closed
    ensures var n := Step(g, AddClient(c));
      Present(n.log, c.id) && c.id in n.clients && (c.id !in g.clients ==> n.clients[c.id] == c)
    ensures var n := Step(g, RemoveClient(c)); !Present(n.log, c.id) && c.id !in n.clients
    ensures PlaybackAfter(Step(g, SetPlaybackState(s)).log) == s
  {
    hide Alternates, Chains, ChanInv, Published, Present, PlaybackAfter;
    PublishedLog(g.(clients := g.clients[c.id := c]), Joined(c));
    PublishedLog(g.(clients := g.clients - {c.id}), Left(c.id, c.name));
    PublishedLog(g.(playbackState := s), Playback(g.playbackState, s));
    PresentMore(g.log, Joined(c), c.id);
    PresentMore(g.log, Left(c.id, c.name), c.id);
    LogMore(g.log, Playback(g.playbackState, s));
  }

  lemma PublishedLog(h: State, e: Event)
    requires h.subs <= h.channels.Keys && !h.closed
    ensures Published(h, e).log == h.log + [e] && Published(h, e).clients == h.clients
  {
  }

  /** Subscribing opens a new channel that sees every event from here on; unsubscribing closes that channel alone. */
  lemma SubscriptionEffects(g: State, i: nat)
    requires Inv(g)
    ensures var n := Step(g, Subscribe);
      if g.closed then n == g
      else
        && g.nextSub !in g.channels && n.subs == g.subs + {g.nextSub}
        && n.channels.Keys == g.channels.Keys + {g.nextSub}
        && n.channels[g.nextSub] == Chan([], false, |g.log|, [], [], [])
        && forall j :: j in g.channels ==> n.channels[j] == g.channels[j]
    ensures var n := Step(g, Unsubscribe(i));
      && i !in n.subs && n.subs == g.subs - {i} && n.channels.Keys == g.channels.Keys
      && (i in g.channels ==> n.channels[i].closed)
      && forall j :: j in g.channels && j != i ==> n.channels[j] == g.channels[j]
  {
    hide Select, Accounted, Alternates, Chains, Present, PlaybackAfter;
    FreshId(g);
    if i in g.channels && i !in g.subs { assert ChanInv(g, i); }
  }

  /** Closing ends it all: no subscriber, no client, every channel closed, and nothing is published any more. */
  lemma CloseEffects(g: State, op: Op)
    requires Inv(g) && Allowed(op)
    ensures var n := Step(g, Close);
      && n.closed && n.subs == {} && n.clients == map[] && n.log == g.log
      && forall j :: j in n.channels ==> n.channels[j].closed
    ensures g.closed ==> Step(g, op).closed && Step(g, op).log == g.log && Step(g, op).subs == {}
  {
    hide Select, Accounted, Alternates, Chains, Present, PlaybackAfter;
    forall j | j in g.channels ensures j !in g.subs ==> g.channels[j].closed { assert ChanInv(g, j); }
  }

  /** What a subscriber takes out is the oldest event waiting for it. */
  lemma ReceiveEffects(g: State, i: nat)
    requires Inv(g) && i in g.channels && g.channels[i].queue != []
    ensures var c, n := g.channels[i], Step(g, Receive(i)).channels[i];
      n.received == c.received + [c.queue[0]] && n.queue == c.queue[1..] && n.closed == c.closed
  {
  }

  /** The families registered in a run. */
  function Families(ops: seq<Op>): set<string> {
    if ops == [] then {} else (if ops[0].RegisterRole? then {ops[0].family} else {}) + Families(ops[1..])
  }

  /** Registering a role is remembered, and the first one starts the dispatcher. */
  lemma {:induction false} RolesAre(g: State, ops: seq<Op>)
    requires Inv(g) && forall i :: 0 <= i < |ops| ==> Allowed(ops[i])
    ensures Run(g, ops).roles == g.roles + Families(ops)
    ensures Run(g, ops).roleDispatchStarted <==> g.roleDispatchStarted || Families(ops) != {}
    decreases |ops|
  {
    if ops == [] {
    } else {
      StepInv(g, ops[0]);
      StepRoles(g, ops[0]);
      hide Inv, Step;
      RolesAre(Step(g, ops[0]), ops[1..]);
    }
  }

  lemma StepRoles(g: State, op: Op)
    requires Inv(g)
    ensures Step(g, op).roles == g.roles + if op.RegisterRole? then {op.family} else {}
    ensures Step(g, op).roleDispatchStarted <==> g.roleDispatchStarted || op.RegisterRole?
  {
    hide Inv;
    assert g.subs <= g.channels.Keys by { InvSubs(g); }
  }

  lemma InvSubs(g: State)
    requires Inv(g)
    ensures g.subs <= g.channels.Keys
  {
  }

  /** The operation an event of the log tells of. */
  predicate Tells(e: Event, op: Op) {
    match e
    case Joined(c) => op == AddClient(c)
    case Left(id, name) => op.RemoveClient? && op.c.id == id && op.c.name == name
    case StateChanged(_, _, _, _) => op == Publish(e)
    case Playback(_, n) => op == SetPlaybackState(n)
  }

  /** Every event of a run's log tells of one of its operations. */
  lemma {:induction false} LogTells(g: State, ops: seq<Op>, k: nat) returns (j: nat)
    requires Inv(g) && forall i :: 0 <= i < |ops| ==> Allowed(ops[i])
    requires |g.log| <= k < |Run(g, ops).log|
    ensures j < |ops| && Tells(Run(g, ops).log[k], ops[j])
    decreases |ops|
  {
    hide Inv, Step, Tells, Run;
    RunOnce(g, ops);
    var n := Step(g, ops[0]);
    StepTells(g, ops[0]);
    LogGrows(n, ops[1..]);
    if k < |n.log| {
      j := 0;
    } else {
      j := LogTells(n, ops[1..], k);
      assert ops[1..][j] == ops[j + 1];
      j := j + 1;
    }
  }

  lemma RunOnce(g: State, ops: seq<Op>)
    requires Inv(g) && forall i :: 0 <= i < |ops| ==> Allowed(ops[i])
    ensures g.subs <= g.channels.Keys && (ops == [] ==> Run(g, ops) == g)
    ensures ops != [] ==> Inv(Step(g, ops[0])) && Run(g, ops) == Run(Step(g, ops[0]), ops[1..])
  {
    if ops != [] { StepInv(g, ops[0]); }
    hide Step;
  }

  lemma StepTells(g: State, op: Op)
    requires Inv(g) && Allowed(op)
    ensures var n := Step(g, op);
      n.log == g.log || (|n.log| == |g.log| + 1 && n.log[..|g.log|] == g.log && Tells(n.log[|g.log|], op))
  {
    hide ChanInv, Alternates, Chains, Present, PlaybackAfter;
  }

  lemma {:induction false} LogGrows(g: State, ops: seq<Op>)
    requires Inv(g) && forall i :: 0 <= i < |ops| ==> Allowed(ops[i])
    ensures g.log <= Run(g, ops).log
    decreases |ops|
  {
    if ops == [] {
    } else {
      StepInv(g, ops[0]);
      StepTells(g, ops[0]);
      hide Inv, Step, Tells;
      LogGrows(Step(g, ops[0]), ops[1..]);
    }
  }
}
