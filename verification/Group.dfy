/** The event bus of pkg/sendspin/group.go and group_role.go. */
module Groups {
  import opened Options

  datatype Client = Client(id: string, name: string)

  datatype Event =
    | Joined(client: Client)
    | Left(id: string, name: string)
    | StateChanged(client: Client, state: string, volume: int, muted: bool)
    | Playback(oldState: string, newState: string)

  const CAPACITY: nat := 32

  /**
   A subscriber's channel. The last four fields are history: the length of the publish log at subscription, for each
   event published since whether it was queued and how many events had been taken out by then, and what was taken out.
   */
  datatype Chan = Chan(
    queue: seq<Event>, closed: bool, since: nat, fate: seq<bool>, taken: seq<nat>, received: seq<Event>)

  /** channels holds every channel ever made, subs those still subscribed; log is every event published. */
  datatype State = State(
    playbackState: string, clients: map<string, Client>, channels: map<nat, Chan>, subs: set<nat>, nextSub: nat,
    closed: bool, roles: set<string>, dispatcher: Option<nat>, roleDispatchStarted: bool, log: seq<Event>)

  const NEW := State("playing", map[], map[], {}, 0, false, {}, None, false, [])

  datatype Op =
    | Subscribe | Unsubscribe(id: nat) | Publish(e: Event) | AddClient(c: Client) | RemoveClient(c: Client)
    | Close | SetPlaybackState(state: string) | RegisterRole(family: string) | Receive(id: nat)

  // ---------------------------------------------------------------- one step

  /** A non-blocking send. */
  function Offer(c: Chan, e: Event): (d: Chan)
    ensures d.closed == c.closed
  {
    var d := c.(taken := c.taken + [|c.received|]);
    if |c.queue| < CAPACITY then d.(queue := c.queue + [e], fate := c.fate + [true]) else d.(fate := c.fate + [false])
  }

  function Published(g: State, e: Event): State
    requires g.subs <= g.channels.Keys
  {
    if g.closed then g
    else g.(
      channels := map i | i in g.channels :: if i in g.subs then Offer(g.channels[i], e) else g.channels[i],
      log := g.log + [e])
  }

  function Subscribed(g: State): State {
    if g.closed then g
    else g.(
      channels := g.channels[g.nextSub := Chan([], false, |g.log|, [], [], [])],
      subs := g.subs + {g.nextSub}, nextSub := g.nextSub + 1)
  }

  /** Events an outsider may publish: only client state changes enter through publish. */
  predicate Allowed(op: Op) { op.Publish? ==> op.e.StateChanged? }

  function Step(g: State, op: Op): State
    requires g.subs <= g.channels.Keys
  {
    match op
    case Subscribe => Subscribed(g)
    case Unsubscribe(i) =>
      if i in g.subs
      then g.(subs := g.subs - {i}, channels := g.channels[i := g.channels[i].(closed := true)])
      else g
    case Publish(e) => Published(g, e)
    case AddClient(c) =>
      if g.closed || c.id in g.clients then g else Published(g.(clients := g.clients[c.id := c]), Joined(c))
    case RemoveClient(c) =>
      if c.id !in g.clients then g else Published(g.(clients := g.clients - {c.id}), Left(c.id, c.name))
    case Close =>
      if g.closed then g
      else g.(
        closed := true, subs := {}, clients := map[],
        channels := map i | i in g.channels :: if i in g.subs then g.channels[i].(closed := true) else g.channels[i])
    case SetPlaybackState(s) =>
      if g.playbackState == s then g else Published(g.(playbackState := s), Playback(g.playbackState, s))
    case RegisterRole(f) =>
      var h := g.(roles := g.roles + {f});
      if h.roleDispatchStarted then h
      else Subscribed(h).(roleDispatchStarted := true, dispatcher := if g.closed then None else Some(g.nextSub))
    case Receive(i) =>
      if i in g.channels && g.channels[i].queue != [] then
        var c := g.channels[i];
        g.(channels := g.channels[i := c.(queue := c.queue[1..], received := c.received + [c.queue[0]])])
      else g
  }

  // ---------------------------------------------------------------- the object

  /** The group/update message to a client that joins. */
  datatype GroupUpdate = GroupUpdate(groupID: string, playbackState: string)

  /** The playback state a client that joins is told. */
  function Told(playbackState: string): string { if playbackState == "" then "playing" else playbackState }

  class Group {
    const id: string
    var playbackState: string
    var clients: map<string, Client>
    var channels: map<nat, Chan>
    var subs: set<nat>
    var nextSub: nat
    var closed: bool
    var roles: set<string>
    var dispatcher: Option<nat>
    var roleDispatchStarted: bool
    var log: seq<Event>  // history

    ghost function View(): State
      reads this
    {
      State(playbackState, clients, channels, subs, nextSub, closed, roles, dispatcher, roleDispatchStarted, log)
    }

    /** No subscribed channel is closed, so no send or close below can panic. */
    ghost predicate Valid()
      reads this
    {
      subs <= channels.Keys && forall i :: i in subs ==> !channels[i].closed
    }

    constructor (id: string)
      ensures Valid() && View() == NEW && this.id == id
    {
      this.id := id;
      playbackState, clients, channels, subs, nextSub := "playing", map[], map[], {}, 0;
      closed, roles, dispatcher, roleDispatchStarted, log := false, {}, None, false, [];
    }

    /** A send panics on a closed channel; that is its precondition. */
    method Send(i: nat, e: Event)
      requires i in channels && !channels[i].closed
      modifies this`channels
      ensures channels == old(channels)[i := Offer(old(channels)[i], e)]
    {
      var c := channels[i].(taken := channels[i].taken + [|channels[i].received|]);
      if |c.queue| < CAPACITY {
        channels := channels[i := c.(queue := c.queue + [e], fate := c.fate + [true])];
      } else {
        channels := channels[i := c.(fate := c.fate + [false])];
      }
    }

    /** Closing panics on a closed channel; that is its precondition. */
    method CloseChannel(i: nat)
      requires i in channels && !channels[i].closed
      modifies this`channels
      ensures channels == old(channels)[i := old(channels)[i].(closed := true)]
    {
      channels := channels[i := channels[i].(closed := true)];
    }

    method PublishLocked(e: Event)
      requires Valid()
      modifies this`channels, this`log
      ensures Valid() && View() == Published(old(View()), e)
    {
      hide Offer;
      if closed { return; }
      log := log + [e];
      ghost var start := channels;
      var todo := subs;
      while todo != {}
        invariant todo <= subs && subs <= channels.Keys && channels.Keys == start.Keys && log == old(log) + [e]
        invariant forall i :: i in channels ==>
          channels[i] == if i in subs && i !in todo then Offer(start[i], e) else start[i]
        decreases todo
      {
        var i :| i in todo;
        Send(i, e);
        todo := todo - {i};
      }
      assert channels == Published(old(View()), e).channels;
    }

    method SubscribeLocked()
      requires Valid()
      modifies this`channels, this`subs, this`nextSub
      ensures Valid() && View() == Subscribed(old(View()))
    {
      if closed { return; }
      channels := channels[nextSub := Chan([], false, |log|, [], [], [])];
      subs := subs + {nextSub};
      nextSub := nextSub + 1;
    }

    method Unsubscribe(i: nat)
      requires Valid()
      modifies this`channels, this`subs
      ensures Valid() && View() == Step(old(View()), Op.Unsubscribe(i))
    {
      if i in subs {
        subs := subs - {i};
        CloseChannel(i);
      }
    }

    /** A client that joins is told the group and its playback state, before the others learn of it. */
    method AddClient(c: Client) returns (update: Option<GroupUpdate>)
      requires Valid()
      modifies this
      ensures Valid() && View() == Step(old(View()), Op.AddClient(c))
      ensures update.Some? <==> !old(closed) && c.id !in old(clients)
      ensures update.Some? ==> update.value == GroupUpdate(id, Told(old(playbackState)))
    {
      if closed { return None; }
      if c.id in clients { return None; }
      clients := clients[c.id := c];
      var told := playbackState;
      if told == "" { told := "playing"; }
      update := Some(GroupUpdate(id, told));
      PublishLocked(Joined(c));
    }

    method RemoveClient(c: Client)
      requires Valid()
      modifies this
      ensures Valid() && View() == Step(old(View()), Op.RemoveClient(c))
    {
      if c.id !in clients { return; }
      clients := clients - {c.id};
      PublishLocked(Left(c.id, c.name));
    }

    method Close()
      requires Valid()
      modifies this
      ensures Valid() && View() == Step(old(View()), Op.Close)
    {
      if closed { return; }
      closed := true;
      CloseAll();
      clients := map[];
    }

    method CloseAll()
      requires Valid()
      modifies this`channels, this`subs
      ensures subs == {}
      ensures channels == map i | i in old(channels) ::
        if i in old(subs) then old(channels)[i].(closed := true) else old(channels)[i]
    {
      while subs != {}
        invariant subs <= old(subs) && Valid() && channels.Keys == old(channels.Keys)
        invariant forall i :: i in channels ==>
          channels[i] == if i in old(subs) && i !in subs then old(channels)[i].(closed := true) else old(channels)[i]
        decreases subs
      {
        var i :| i in subs;
        CloseChannel(i);
        subs := subs - {i};
      }
    }

    method SetPlaybackState(state: string)
      requires Valid()
      modifies this
      ensures Valid() && View() == Step(old(View()), Op.SetPlaybackState(state))
    {
      if playbackState == state { return; }
      var oldState := playbackState;
      playbackState := state;
      PublishLocked(Playback(oldState, state));
    }

    method RegisterRole(family: string)
      requires Valid()
      modifies this
      ensures Valid() && View() == Step(old(View()), Op.RegisterRole(family))
    {
      roles := roles + {family};
      if roleDispatchStarted { return; }
      roleDispatchStarted := true;
      if !closed { dispatcher := Some(nextSub); } else { dispatcher := None; }
      SubscribeLocked();
    }
  }

  // ---------------------------------------------------------------- what the log means

  /** The events whose verdict is true, in order. */
  function Select(s: seq<Event>, keep: seq<bool>): seq<Event>
    requires |s| == |keep|
  {
    if s == [] then []
    else Select(s[..|s| - 1], keep[..|keep| - 1]) + if keep[|keep| - 1] then [s[|s| - 1]] else []
  }

  /** The client's last Joined or Left event is a Joined. */
  predicate Present(log: seq<Event>, id: string) {
    if log == [] then false
    else
      match log[|log| - 1]
      case Joined(c) => c.id == id || Present(log[..|log| - 1], id)
      case Left(i, _) => i != id && Present(log[..|log| - 1], id)
      case _ => Present(log[..|log| - 1], id)
  }

  /** Per client, Joined and Left strictly alternate, starting with Joined. */
  predicate Alternates(log: seq<Event>) {
    log == [] || (
      Alternates(log[..|log| - 1]) &&
      match log[|log| - 1]
      case Joined(c) => !Present(log[..|log| - 1], c.id)
      case Left(i, _) => Present(log[..|log| - 1], i)
      case _ => true)
  }

  function PlaybackAfter(log: seq<Event>): string {
    if log == [] then "playing"
    else if log[|log| - 1].Playback? then log[|log| - 1].newState
    else PlaybackAfter(log[..|log| - 1])
  }

  /** Each playback event starts where the one before it ended, and really changes the state. */
  predicate Chains(log: seq<Event>) {
    log == [] || (
      Chains(log[..|log| - 1]) &&
      (log[|log| - 1].Playback? ==>
        log[|log| - 1].oldState == PlaybackAfter(log[..|log| - 1])
        && log[|log| - 1].oldState != log[|log| - 1].newState))
  }

  predicate JoinOf(e: Event, id: string) { e.Joined? && e.client.id == id }

  predicate LeaveOf(e: Event, id: string) { e.Left? && e.id == id }

  lemma PresentAt(log: seq<Event>, n: nat, id: string)
    requires n < |log|
    ensures Present(log[..n + 1], id) == (JoinOf(log[n], id) || (!LeaveOf(log[n], id) && Present(log[..n], id)))
  {
    assert log[..n + 1][..n] == log[..n];
  }

  lemma {:induction false} AlternatesAt(log: seq<Event>, n: nat, id: string)
    requires Alternates(log) && n < |log|
    ensures JoinOf(log[n], id) ==> !Present(log[..n], id)
    ensures LeaveOf(log[n], id) ==> Present(log[..n], id)
    decreases |log|
  {
    var m := |log| - 1;
    if n < m {
      AlternatesAt(log[..m], n, id);
      assert log[..m][..n] == log[..n];
    }
  }

  /** Without a Left in between a client stays present, and without a Joined it stays absent. */
  lemma {:induction false} PresenceLasts(log: seq<Event>, i: nat, j: nat, id: string)
    requires i <= j <= |log|
    ensures Present(log[..i], id) && (forall k :: i <= k < j ==> !LeaveOf(log[k], id)) ==> Present(log[..j], id)
    ensures !Present(log[..i], id) && (forall k :: i <= k < j ==> !JoinOf(log[k], id)) ==> !Present(log[..j], id)
    decreases j
  {
    if i < j {
      PresenceLasts(log, i, j - 1, id);
      PresentAt(log, j - 1, id);
    }
  }

  /**
   What Alternates means: between two joins of a client it left, between two leaves it joined, and it joined first.
   */
  lemma AlternatesMeans(log: seq<Event>, i: nat, j: nat, id: string)
    requires Alternates(log) && i < j < |log|
    ensures JoinOf(log[i], id) && JoinOf(log[j], id) ==> exists k :: i < k < j && LeaveOf(log[k], id)
    ensures LeaveOf(log[i], id) && LeaveOf(log[j], id) ==> exists k :: i < k < j && JoinOf(log[k], id)
    ensures LeaveOf(log[i], id) ==> exists k :: 0 <= k < i && JoinOf(log[k], id)
  {
    AlternatesAt(log, i, id); AlternatesAt(log, j, id);
    PresentAt(log, i, id);
    PresenceLasts(log, i + 1, j, id);
    PresenceLasts(log, 0, i, id);
  }

  lemma {:induction false} PlaybackLasts(log: seq<Event>, i: nat, j: nat)
    requires i <= j <= |log| && forall k :: i <= k < j ==> !log[k].Playback?
    ensures PlaybackAfter(log[..j]) == PlaybackAfter(log[..i])
    decreases j
  {
    if i < j {
      PlaybackLasts(log, i, j - 1);
      assert log[..j][..j - 1] == log[..j - 1];
    }
  }

  lemma {:induction false} ChainsAt(log: seq<Event>, n: nat)
    requires Chains(log) && n < |log| && log[n].Playback?
    ensures log[n].oldState == PlaybackAfter(log[..n]) && log[n].oldState != log[n].newState
    decreases |log|
  {
    var m := |log| - 1;
    if n < m {
      ChainsAt(log[..m], n);
      assert log[..m][..n] == log[..n];
    }
  }

  /** What Chains means: of two playback events with none between them, the later starts where the earlier ended. */
  lemma ChainsMeans(log: seq<Event>, i: nat, j: nat)
    requires Chains(log) && i < j < |log| && log[i].Playback? && log[j].Playback?
    requires forall k :: i < k < j ==> !log[k].Playback?
    ensures log[j].oldState == log[i].newState && log[j].oldState != log[j].newState
  {
    ChainsAt(log, j);
    PlaybackLasts(log, i + 1, j);
    assert log[..i + 1][..i] == log[..i];
  }

  // ---------------------------------------------------------------- the invariant

  ghost predicate ChanInv(g: State, i: nat)
    requires i in g.channels
  {
    var c := g.channels[i];
    && (c.closed <==> i !in g.subs)
    && i < g.nextSub
    && |c.queue| <= CAPACITY
    && c.since + |c.fate| <= |g.log|
    && (i in g.subs ==> c.since + |c.fate| == |g.log|)
    && c.received + c.queue == Select(g.log[c.since..c.since + |c.fate|], c.fate)
    && |c.taken| == |c.fate| && Accounted(c)
  }

  /** How many events were queued. */
  function Queued(fate: seq<bool>): nat {
    if fate == [] then 0 else Queued(fate[..|fate| - 1]) + if fate[|fate| - 1] then 1 else 0
  }

  /**
   An event was lost exactly when 32 of those queued before it had not been taken out, and never more than 32 were.
   */
  ghost predicate Accounted(c: Chan)
    requires |c.taken| == |c.fate|
  {
    forall k :: 0 <= k < |c.fate| ==>
      var waiting := Queued(c.fate[..k]) - c.taken[k];
      0 <= waiting <= CAPACITY && c.taken[k] <= |c.received| && (c.fate[k] <==> waiting < CAPACITY)
  }

  lemma {:induction false} QueuedIs(s: seq<Event>, keep: seq<bool>)
    requires |s| == |keep|
    ensures |Select(s, keep)| == Queued(keep)
  {
    if s == [] {
    } else {
      QueuedIs(s[..|s| - 1], keep[..|s| - 1]);
    }
  }

  lemma AccountedOffer(c: Chan, e: Event)
    requires |c.taken| == |c.fate| && Accounted(c) && |c.queue| <= CAPACITY
    requires |c.received| + |c.queue| == Queued(c.fate)
    ensures var d := Offer(c, e); |d.taken| == |d.fate| && Accounted(d)
  {
    hide Queued;
    var d, n := Offer(c, e), |c.fate|;
    forall k | 0 <= k < |d.fate|
      ensures var waiting := Queued(d.fate[..k]) - d.taken[k];
        0 <= waiting <= CAPACITY && d.taken[k] <= |d.received| && (d.fate[k] <==> waiting < CAPACITY)
    {
      assert d.fate[..k] == c.fate[..k];
      if k == n { assert c.fate[..n] == c.fate; }
    }
  }

  ghost predicate Inv(g: State) {
    && g.subs <= g.channels.Keys
    && (forall i :: i in g.channels ==> ChanInv(g, i))
    && (g.closed ==> g.subs == {} && g.clients == map[])
    && Alternates(g.log) && Chains(g.log)
    && (!g.closed ==> g.playbackState == PlaybackAfter(g.log))
    && (!g.closed ==> forall id :: id in g.clients <==> Present(g.log, id))
    && (g.dispatcher.Some? ==> g.roleDispatchStarted)
  }

  lemma SelectMore(s: seq<Event>, keep: seq<bool>, e: Event, k: bool)
    requires |s| == |keep|
    ensures Select(s + [e], keep + [k]) == Select(s, keep) + if k then [e] else []
  {
    assert (s + [e])[..|s|] == s && (keep + [k])[..|keep|] == keep;
  }

  lemma OfferInv(g: State, e: Event, i: nat)
    requires g.subs <= g.channels.Keys && i in g.channels && ChanInv(g, i) && !g.closed
    ensures ChanInv(Published(g, e), i)
  {
    hide Select, Accounted;
    var c, n := g.channels[i], Published(g, e);
    var d := n.channels[i];
    if i in g.subs {
      QueuedIs(g.log[c.since..c.since + |c.fate|], c.fate);
      AccountedOffer(c, e);
      var sent := |c.queue| < CAPACITY;
      SelectMore(g.log[c.since..], c.fate, e, sent);
      assert n.log[c.since..c.since + |d.fate|] == g.log[c.since..] + [e];
      assert g.log[c.since..] == g.log[c.since..c.since + |c.fate|];
      assert d.fate == c.fate + [sent];
      assert d.received + d.queue == (c.received + c.queue) + if sent then [e] else [];
    } else {
      assert n.log[c.since..c.since + |c.fate|] == g.log[c.since..c.since + |c.fate|];
    }
  }

  /** What one more event does to the readings of the log. */
  lemma LogMore(log: seq<Event>, e: Event)
    ensures Alternates(log + [e]) ==
      (Alternates(log) && (e.Joined? ==> !Present(log, e.client.id)) && (e.Left? ==> Present(log, e.id)))
    ensures Chains(log + [e]) ==
      (Chains(log) && (e.Playback? ==> e.oldState == PlaybackAfter(log) && e.oldState != e.newState))
    ensures PlaybackAfter(log + [e]) == if e.Playback? then e.newState else PlaybackAfter(log)
  {
    assert (log + [e])[..|log|] == log;
  }

  lemma PresentMore(log: seq<Event>, e: Event, id: string)
    ensures Present(log + [e], id) == (JoinOf(e, id) || (!LeaveOf(e, id) && Present(log, id)))
  {
    assert (log + [e])[..|log|] == log;
  }

  /** The client map and the log agree on who is present. */
  ghost predicate Roll(clients: map<string, Client>, log: seq<Event>) {
    forall id :: id in clients <==> Present(log, id)
  }

  lemma RollMore(clients: map<string, Client>, after: map<string, Client>, log: seq<Event>, e: Event)
    requires Roll(clients, log)
    requires match e
      case Joined(c) => after == clients[c.id := c]
      case Left(id, _) => after == clients - {id}
      case _ => after == clients
    ensures Roll(after, log + [e])
  {
    hide Present;
    forall id ensures id in after <==> Present(log + [e], id) {
      PresentMore(log, e, id);
      assert id in clients <==> Present(log, id);
    }
  }

  /** The channels after a publication. */
  lemma PublishedChannels(g: State, h: State, e: Event)
    requires Inv(g) && !g.closed && h == g.(clients := h.clients, playbackState := h.playbackState)
    ensures forall i :: i in Published(h, e).channels ==> ChanInv(Published(h, e), i)
  {
    hide ChanInv, Alternates, Chains, Present, PlaybackAfter, Published, Offer;
    PublishedKeys(h, e);
    forall i | i in Published(h, e).channels ensures ChanInv(Published(h, e), i) {
      assert ChanInv(g, i);
      SameChan(g, h, i);
      OfferInv(h, e, i);
    }
  }

  lemma PublishedKeys(h: State, e: Event)
    requires h.subs <= h.channels.Keys && !h.closed
    ensures var n := Published(h, e);
      n.channels.Keys == h.channels.Keys && n == h.(channels := n.channels, log := h.log + [e])
  {
  }

  /** Publishing e from a state that is consistent but for what e is about to record. */
  lemma PublishedInv(g: State, h: State, e: Event)
    requires Inv(g) && !g.closed && h == g.(clients := h.clients, playbackState := h.playbackState)
    requires match e
      case Joined(c) => c.id !in g.clients && h == g.(clients := g.clients[c.id := c])
      case Left(id, _) => id in g.clients && h == g.(clients := g.clients - {id})
      case Playback(o, n) => o == g.playbackState && n != o && h == g.(playbackState := n)
      case StateChanged(_, _, _, _) => h == g
    ensures Inv(Published(h, e))
  {
    hide ChanInv, Alternates, Chains, Present, PlaybackAfter, Published, Roll;
    PublishedChannels(g, h, e);
    PublishedKeys(h, e);
    LogMore(g.log, e);
    RollIs(g);
    RollMore(g.clients, h.clients, g.log, e);
    RollIs(Published(h, e));
    RollHas(g, e);
  }

  lemma RollIs(g: State)
    ensures Roll(g.clients, g.log) <==> forall id :: id in g.clients <==> Present(g.log, id)
  {
    hide Present;
  }

  lemma RollHas(g: State, e: Event)
    requires Roll(g.clients, g.log)
    ensures e.Joined? ==> (e.client.id in g.clients <==> Present(g.log, e.client.id))
    ensures e.Left? ==> (e.id in g.clients <==> Present(g.log, e.id))
  {
    hide Present;
  }

  lemma SubscribedInv(g: State)
    requires Inv(g)
    ensures Inv(Subscribed(g))
  {
    hide ChanInv, Alternates, Chains, Present, PlaybackAfter;
    var n := Subscribed(g);
    if !g.closed {
      forall i | i in n.channels ensures ChanInv(n, i) {
        if i == g.nextSub { NewChan(n, i, |g.log|); } else { assert ChanInv(g, i); OldChan(g, n, i); }
      }
      FreshId(g);
    }
  }

  lemma NewChan(n: State, i: nat, since: nat)
    requires i in n.channels && n.channels[i] == Chan([], false, since, [], [], []) && since == |n.log|
    requires i in n.subs && i < n.nextSub
    ensures ChanInv(n, i)
  {
  }

  /** A channel of g when only younger ones have been added. */
  lemma OldChan(g: State, n: State, i: nat)
    requires i in g.channels && ChanInv(g, i) && i in n.channels && n.channels[i] == g.channels[i]
    requires n.log == g.log && g.nextSub <= n.nextSub && (i in n.subs <==> i in g.subs)
    ensures ChanInv(n, i)
  {
    hide Select, Accounted;
  }

  lemma FreshId(g: State)
    requires Inv(g)
    ensures g.nextSub !in g.channels
  {
  }

  lemma ChannelsInv(g: State, n: State)
    requires Inv(g) && n.log == g.log && n.channels.Keys == g.channels.Keys && n.nextSub == g.nextSub
    requires n.subs <= g.subs && (forall i :: i in n.channels ==> ChanInv(n, i))
    requires n.dispatcher == g.dispatcher && n.roleDispatchStarted == g.roleDispatchStarted
    requires
      if n.closed then n.subs == {} && n.clients == map[]
      else !g.closed && n.clients == g.clients && n.playbackState == g.playbackState
    ensures Inv(n)
  {
  }

  lemma SameChan(g: State, n: State, i: nat)
    requires i in g.channels && ChanInv(g, i) && i in n.channels && n.channels[i] == g.channels[i]
    requires n.log == g.log && n.nextSub == g.nextSub && (i in n.subs <==> i in g.subs)
    ensures ChanInv(n, i)
  {
    hide Select, Accounted;
  }

  lemma ClosedChan(g: State, n: State, i: nat)
    requires i in g.subs && i in g.channels && ChanInv(g, i)
    requires i in n.channels && i !in n.subs && n.channels[i] == g.channels[i].(closed := true)
    requires n.log == g.log && n.nextSub == g.nextSub
    ensures ChanInv(n, i)
  {
    hide Select, Queued;
  }

  lemma UnsubscribeInv(g: State, i: nat)
    requires Inv(g)
    ensures Inv(Step(g, Unsubscribe(i)))
  {
    var n := Step(g, Unsubscribe(i));
    if i in g.subs {
      forall j | j in n.channels ensures ChanInv(n, j) {
        assert ChanInv(g, j);
        if j == i { ClosedChan(g, n, j); } else { SameChan(g, n, j); }
      }
      hide ChanInv, Alternates, Chains, Present, PlaybackAfter;
      ChannelsInv(g, n);
    }
  }

  lemma CloseInv(g: State)
    requires Inv(g)
    ensures Inv(Step(g, Close))
  {
    var n := Step(g, Close);
    if !g.closed {
      forall j | j in n.channels ensures ChanInv(n, j) {
        assert ChanInv(g, j);
        if j in g.subs { ClosedChan(g, n, j); } else { SameChan(g, n, j); }
      }
      hide ChanInv, Alternates, Chains, Present, PlaybackAfter;
      ChannelsInv(g, n);
    }
  }

  lemma ReceiveInv(g: State, i: nat)
    requires Inv(g)
    ensures Inv(Step(g, Receive(i)))
  {
    var n := Step(g, Receive(i));
    if n != g {
      forall j | j in n.channels ensures ChanInv(n, j) {
        assert ChanInv(g, j);
        if j == i { ReceiveChan(g, n, i); } else { SameChan(g, n, j); }
      }
      hide ChanInv, Alternates, Chains, Present, PlaybackAfter;
      ChannelsInv(g, n);
    }
  }

  lemma ReceiveChan(g: State, n: State, i: nat)
    requires g.subs <= g.channels.Keys && i in g.channels && ChanInv(g, i) && g.channels[i].queue != []
    requires n == Step(g, Receive(i))
    ensures ChanInv(n, i)
  {
    hide Select;
    var c := g.channels[i];
    assert (c.received + [c.queue[0]]) + c.queue[1..] == c.received + c.queue;
  }

  /** The invariant does not depend on the fields that differ. */
  lemma SameInv(g: State, n: State)
    requires Inv(g)
    requires n == g.(roles := n.roles, dispatcher := n.dispatcher, roleDispatchStarted := n.roleDispatchStarted)
    requires n.dispatcher.Some? ==> n.roleDispatchStarted
    ensures Inv(n)
  {
    hide ChanInv, Alternates, Chains, Present, PlaybackAfter;
    forall j | j in n.channels ensures ChanInv(n, j) {
      assert ChanInv(g, j);
      SameChan(g, n, j);
    }
  }

  lemma RegisterInv(g: State, f: string)
    requires Inv(g)
    ensures Inv(Step(g, RegisterRole(f)))
  {
    var h := g.(roles := g.roles + {f});
    SameInv(g, h);
    SubscribedInv(h);
    if !h.roleDispatchStarted { SameInv(Subscribed(h), Step(g, RegisterRole(f))); }
  }

  lemma PlaybackInv(g: State, s: string)
    requires Inv(g)
    ensures Inv(Step(g, SetPlaybackState(s)))
  {
    hide ChanInv, Alternates, Chains, Present, PlaybackAfter;
    if g.closed {
      var n := Step(g, SetPlaybackState(s));
      forall j | j in n.channels ensures ChanInv(n, j) {
        assert ChanInv(g, j);
        SameChan(g, n, j);
      }
      ChannelsInv(g, n);
    } else if g.playbackState != s {
      PublishedInv(g, g.(playbackState := s), Playback(g.playbackState, s));
    }
  }

  lemma StepInv(g: State, op: Op)
    requires Inv(g) && Allowed(op)
    ensures Inv(Step(g, op))
  {
    match op
    case Subscribe => SubscribedInv(g);
    case Unsubscribe(i) => UnsubscribeInv(g, i);
    case Publish(e) =>
      if !g.closed { PublishedInv(g, g, e); }
    case AddClient(c) =>
      if !g.closed && c.id !in g.clients { PublishedInv(g, g.(clients := g.clients[c.id := c]), Joined(c)); }
    case RemoveClient(c) =>
      if c.id in g.clients { PublishedInv(g, g.(clients := g.clients - {c.id}), Left(c.id, c.name)); }
    case Close => CloseInv(g);
    case SetPlaybackState(s) => PlaybackInv(g, s);
    case RegisterRole(f) => RegisterInv(g, f);
    case Receive(i) => ReceiveInv(g, i);
  }

  // ---------------------------------------------------------------- whole runs

  ghost function Run(g: State, ops: seq<Op>): State
    requires Inv(g) && forall i :: 0 <= i < |ops| ==> Allowed(ops[i])
    ensures Inv(Run(g, ops))
    decreases |ops|
  {
    if ops == [] then g
    else
      StepInv(g, ops[0]);
      Run(Step(g, ops[0]), ops[1..])
  }

  lemma NewInv()
    ensures Inv(NEW)
  {
  }

  /**
   In every reachable state the published log alternates and chains, and while the group is open it lists exactly the
   attached clients. A joining client is told the playback state the log ends in if and only if that is not empty.
   */
  lemma BusLog(ops: seq<Op>)
    requires forall i :: 0 <= i < |ops| ==> Allowed(ops[i])
    ensures Inv(NEW)
    ensures var g := Run(NEW, ops);
      && Alternates(g.log) && Chains(g.log)
      && (!g.closed ==> forall id :: id in g.clients <==> Present(g.log, id))
      && (!g.closed ==>
          && (Told(g.playbackState) == PlaybackAfter(g.log) <==> PlaybackAfter(g.log) != "")
          && (PlaybackAfter(g.log) == "" ==> Told(g.playbackState) == "playing"))
  {
    NewInv();
  }

  /** The empty state is published, and told to nobody who joins afterwards. */
  lemma EmptyStateIsToldAsPlaying()
    ensures Inv(NEW)
    ensures var g := Run(NEW, [SetPlaybackState("")]);
      !g.closed && PlaybackAfter(g.log) == "" && Told(g.playbackState) == "playing"
  {
    NewInv();
    BusLog([SetPlaybackState("")]);
    var g := Step(NEW, SetPlaybackState(""));
    assert [SetPlaybackState("")][1..] == [];
    assert Run(g, []) == g;
  }

  /**
   Each subscriber has received or still holds, in publish order, exactly the events whose send found room. A channel
   whose queue never filled up (no false verdict) has missed nothing since it subscribed.
   */
  lemma SubscriberStream(ops: seq<Op>, i: nat)
    requires forall k :: 0 <= k < |ops| ==> Allowed(ops[k])
    requires Inv(NEW) && i in Run(NEW, ops).channels
    ensures var g := Run(NEW, ops); var c := g.channels[i];
      && c.since + |c.fate| <= |g.log| && (i in g.subs ==> c.since + |c.fate| == |g.log|)
      && c.received + c.queue == Select(g.log[c.since..c.since + |c.fate|], c.fate)
      && (false !in c.fate ==> c.received + c.queue == g.log[c.since..c.since + |c.fate|])
  {
    hide Run, Select;
    ChanStream(Run(NEW, ops), i);
  }

  lemma ChanStream(g: State, i: nat)
    requires Inv(g) && i in g.channels
    ensures var c := g.channels[i];
      && c.since + |c.fate| <= |g.log| && (i in g.subs ==> c.since + |c.fate| == |g.log|)
      && c.received + c.queue == Select(g.log[c.since..c.since + |c.fate|], c.fate)
      && (false !in c.fate ==> c.received + c.queue == g.log[c.since..c.since + |c.fate|])
  {
    hide Select;
    assert ChanInv(g, i);
    var c := g.channels[i];
    if false !in c.fate { SelectAll(g.log[c.since..c.since + |c.fate|], c.fate); }
  }

  lemma {:induction false} SelectAll(s: seq<Event>, keep: seq<bool>)
    requires |s| == |keep| && false !in keep
    ensures Select(s, keep) == s
  {
    if s == [] {
    } else {
      var n := |s| - 1;
      SelectAll(s[..n], keep[..n]);
      assert keep[n] in keep;
      assert s == s[..n] + [s[n]];
    }
  }

  /**
   Losses over whole runs: event number k after the subscription was lost to the subscriber exactly when 32 of the
   events queued before it had not been taken out yet.
   */
  lemma LostOnlyWhenFull(ops: seq<Op>, i: nat, k: nat)
    requires forall k :: 0 <= k < |ops| ==> Allowed(ops[k])
    requires Inv(NEW) && i in Run(NEW, ops).channels && k < |Run(NEW, ops).channels[i].fate|
    ensures var c := Run(NEW, ops).channels[i];
      && |c.taken| == |c.fate| && c.taken[k] <= |c.received| && c.since + k < |Run(NEW, ops).log|
      && (!c.fate[k] <==> Queued(c.fate[..k]) - c.taken[k] == CAPACITY)
  {
    hide Run, Select, Queued, Alternates, Chains, Present, PlaybackAfter;
    assert ChanInv(Run(NEW, ops), i);
  }

  /** A closed channel stays closed and is never sent to: only its holder's receives touch it. */
  lemma ClosedForGood(g: State, op: Op, i: nat)
    requires Inv(g) && Allowed(op) && i in g.channels && g.channels[i].closed
    ensures var c, n := g.channels[i], Step(g, op);
      i in n.channels && n.channels[i].closed && n.channels[i].fate == c.fate
      && (op != Receive(i) ==> n.channels[i] == c)
  {
    hide Select, Alternates, Chains, Present, PlaybackAfter;
    assert ChanInv(g, i);
    assert i !in g.subs && i < g.nextSub;
    hide ChanInv;
  }

  /** The roles' dispatcher subscribes at most once, however many roles register. */
  lemma OneDispatcher(g: State, op: Op)
    requires Inv(g) && Allowed(op) && g.roleDispatchStarted
    ensures Step(g, op).roleDispatchStarted && Step(g, op).dispatcher == g.dispatcher
    ensures op.RegisterRole? ==> Step(g, op).subs == g.subs && Step(g, op).channels == g.channels
  {
  }
}
