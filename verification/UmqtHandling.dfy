/** How often a handler runs: once for every arrival of its datagram, because nothing removes duplicates. */
module UmqtHandling {
  import opened Common
  import opened Headers
  import opened UmqtWire
  import opened UmqtNode
  import opened UmqtSystem
  import opened UmqtInvariant
  import opened UmqtHistory
  import opened UmqtSafety

  /** The step delivers a datagram that the acceptor of `b` reads as the data message `m` from `from`. */
  predicate Arrives(s: State, x: Action, b: Addr, from: Addr, m: Msg)
    requires Enabled(s, x)
  {
    && x.Deliver? && s.net[x.i].dst == b && s.net[x.i].src == from && m.kind == Data
    && Receive(s.nodes[b].block, s.net[x.i].msg) == Some(m)
  }

  function Arrivals(s: State, xs: seq<Action>, b: Addr, from: Addr, m: Msg): nat
    requires Runs(s, xs)
    decreases |xs|
  {
    if xs == [] then 0
    else (if Arrives(s, xs[0], b, from, m) then 1 else 0) + Arrivals(Next(s, xs[0]), xs[1..], b, from, m)
  }

  /** Handler runs for `m`, counting the one the acceptor is about to start. */
  function Handlings(n: Node, from: Addr, m: Msg): nat {
    multiset(n.handled)[(from, m)] + if n.acceptor == Dispatching(from, m) then 1 else 0
  }

  /** Nothing but `Dispatch` concerns handlers. */
  lemma OthersHandleNothing(self: Addr, n: Node, act: Act)
    requires CanAct(n, act) && !act.DoDispatch?
    ensures var n' := Do(self, n, act).0;
      && n'.handled == n.handled && n.consumers <= n'.consumers
      && (n'.acceptor.Dispatching? || n.acceptor.Dispatching? ==> n'.acceptor == n.acceptor)
  {
    hide SizedSend, InviteMsg, Emit, DataMsg;
  }

  lemma DoHandles(self: Addr, n: Node, act: Act, from: Addr, m: Msg)
    requires CanAct(n, act)
    ensures var n' := Do(self, n, act).0;
      && n.consumers <= n'.consumers && Handlings(n', from, m) <= Handlings(n, from, m)
      && (m.topic in n.consumers ==> Handlings(n', from, m) == Handlings(n, from, m))
  {
    if !act.DoDispatch? {
      hide CanAct, Do;
      OthersHandleNothing(self, n, act);
    }
  }

  lemma AcceptHandles(self: Addr, n: Node, src: Addr, arrived: Option<Msg>, from: Addr, m: Msg)
    requires n.acceptor.Ready?
    ensures var n' := Accept(self, n, src, arrived).0;
      && n'.consumers == n.consumers
      && Handlings(n', from, m) == Handlings(n, from, m) +
           if arrived == Some(m) && src == from && m.kind == Data then 1 else 0
  {
    hide IdOf;
  }

  lemma StepHandles(s: State, x: Action, b: Addr, from: Addr, m: Msg)
    requires Enabled(s, x) && b in s.nodes
    ensures b in Next(s, x).nodes
    ensures var n, n', now := s.nodes[b], Next(s, x).nodes[b], if Arrives(s, x, b, from, m) then 1 else 0;
      && n.consumers <= n'.consumers && Handlings(n', from, m) <= Handlings(n, from, m) + now
      && (m.topic in n.consumers ==> Handlings(n', from, m) == Handlings(n, from, m) + now)
  {
    hide CanAct, Do, Accept, Handlings, Receive;
    match x
    case Run(a, act) => if a == b { DoHandles(a, s.nodes[a], act, from, m); }
    case Deliver(i) =>
      var p := s.net[i];
      if p.dst == b {
        AcceptHandles(b, s.nodes[b], p.src, Receive(s.nodes[b].block, p.msg), from, m);
      }
  }

  /** Over any run a handler runs at most once for every arrival of its message; and exactly once for every
      arrival if its topic has a consumer from the start, so a duplicated datagram is handled twice. */
  lemma {:induction false} HandledPerArrival(s: State, xs: seq<Action>, b: Addr, from: Addr, m: Msg)
    requires Runs(s, xs) && b in s.nodes
    ensures b in Exec(s, xs).nodes
    ensures Handlings(Exec(s, xs).nodes[b], from, m) <= Handlings(s.nodes[b], from, m) + Arrivals(s, xs, b, from, m)
    ensures m.topic in s.nodes[b].consumers ==>
      Handlings(Exec(s, xs).nodes[b], from, m) == Handlings(s.nodes[b], from, m) + Arrivals(s, xs, b, from, m)
    decreases |xs|
  {
    hide Enabled, Next, Handlings, Arrives;
    if xs != [] {
      StepHandles(s, xs[0], b, from, m);
      HandledPerArrival(Next(s, xs[0]), xs[1..], b, from, m);
    }
  }

  /** One datagram delivered twice. */
  function Twice(i: nat, b: Addr): seq<Action> {
    [Deliver(i), Run(b, DoDispatch), Deliver(i), Run(b, DoDispatch)]
  }

  /** A duplicate is handled again: delivering data to a registered handler twice runs it exactly two times. */
  lemma DuplicateIsHandledTwice(s: State, i: nat)
    requires Enabled(s, Deliver(i)) && s.net[i].msg.kind == Data
    requires var p := s.net[i]; Fits(s.nodes[p.dst].block, p.msg) && p.msg.topic in s.nodes[p.dst].consumers
    ensures var p := s.net[i]; Runs(s, Twice(i, p.dst)) && p.dst in Exec(s, Twice(i, p.dst)).nodes
    ensures var p := s.net[i];
      multiset(Exec(s, Twice(i, p.dst)).nodes[p.dst].handled)[(p.src, p.msg)] ==
        multiset(s.nodes[p.dst].handled)[(p.src, p.msg)] + 2
  {
    hide Fits, Sendable, Next, CanAct;
    var p := s.net[i];
    var t := HandleOnce(s, i);
    var u := HandleOnce(t, i);
    var xs := Twice(i, p.dst);
    assert xs == [Deliver(i), Run(p.dst, DoDispatch)] + [Deliver(i), Run(p.dst, DoDispatch)];
    RunsTwo(s, Deliver(i), Run(p.dst, DoDispatch));
    RunsTwo(t, Deliver(i), Run(p.dst, DoDispatch));
    RunsThen(s, [Deliver(i), Run(p.dst, DoDispatch)], [Deliver(i), Run(p.dst, DoDispatch)]);
  }

  lemma HandleOnce(s: State, i: nat) returns (t: State)
    requires Enabled(s, Deliver(i)) && s.net[i].msg.kind == Data
    requires var p := s.net[i]; Fits(s.nodes[p.dst].block, p.msg) && p.msg.topic in s.nodes[p.dst].consumers
    ensures var p := s.net[i]; var u := Next(s, Deliver(i));
      && Enabled(u, Run(p.dst, DoDispatch)) && t == Next(u, Run(p.dst, DoDispatch))
      && s.net <= t.net && Enabled(t, Deliver(i)) && t.net[i] == p && p.dst in t.nodes
      && t.nodes[p.dst].block == s.nodes[p.dst].block && t.nodes[p.dst].consumers == s.nodes[p.dst].consumers
      && t.nodes[p.dst].handled == s.nodes[p.dst].handled + [(p.src, p.msg)]
  {
    hide Receive, Fits, Sendable;
    var p := s.net[i];
    ReceiveWhole(s.nodes[p.dst].block, p.msg);
    t := Next(Next(s, Deliver(i)), Run(p.dst, DoDispatch));
  }

  lemma {:induction false} RunsThen(s: State, xs: seq<Action>, ys: seq<Action>)
    requires Runs(s, xs) && Runs(Exec(s, xs), ys)
    ensures Runs(s, xs + ys) && Exec(s, xs + ys) == Exec(Exec(s, xs), ys)
    decreases |xs|
  {
    hide Enabled, Next;
    if xs == [] {
      assert xs + ys == ys;
    } else {
      RunsThen(Next(s, xs[0]), xs[1..], ys);
      assert (xs + ys)[1..] == xs[1..] + ys;
    }
  }

  lemma RunsTwo(s: State, x: Action, y: Action)
    requires Enabled(s, x) && Enabled(Next(s, x), y)
    ensures Runs(s, [x, y]) && Exec(s, [x, y]) == Next(Next(s, x), y)
  {
    hide Enabled, Next;
    var t := Next(s, x);
    var u := Next(t, y);
    assert Runs(u, []) && Exec(u, []) == u;
    assert [y][0] == y && [y][1..] == [];
    assert Runs(t, [y]) && Exec(t, [y]) == u;
    assert [x, y][0] == x && [x, y][1..] == [y];
  }

  /** If `p` stands at one place of the final log only, its arrivals are deliveries of that place. */
  lemma {:induction false} ArrivalsAre(s: State, xs: seq<Action>, i: nat, p: Packet)
    requires Inv(s) && Runs(s, xs) && !Garbled(p.msg) && p.dst in s.nodes
    requires forall j | 0 <= j < |Exec(s, xs).net| && Exec(s, xs).net[j] == p :: j == i
    ensures Arrivals(s, xs, p.dst, p.src, p.msg) <= multiset(xs)[Deliver(i)]
    decreases |xs|
  {
    hide Inv, Enabled, Next, Garbled, Arrives;
    if xs != [] {
      assert xs == [xs[0]] + xs[1..];
      StepKeepsInv(s, xs[0]);
      ExecKeepsInv(s, xs);
      if Arrives(s, xs[0], p.dst, p.src, p.msg) {
        ArrivalIsAt(s, xs[0], p);
        assert Exec(s, xs).net[xs[0].i] == p;
      }
      ArrivalsAre(Next(s, xs[0]), xs[1..], i, p);
    }
  }

  lemma ArrivalIsAt(s: State, x: Action, p: Packet)
    requires Inv(s) && Enabled(s, x) && !Garbled(p.msg) && p.dst in s.nodes
    requires Arrives(s, x, p.dst, p.src, p.msg)
    ensures x.Deliver? && x.i < |s.net| && s.net[x.i] == p
  {
    hide Inv, Garbled, Receive, Fits, Sendable;
    PacketSized(s, s.net[x.i]);
    ReceivedKind(s.nodes[p.dst].block, s.net[x.i].msg);
  }

  /** The handler of an unreliable send never runs more often than the network delivers its one datagram. */
  lemma UnreliableHandledPerDelivery(s0: State, xs: seq<Action>, i: nat)
    requires Init(s0) && Runs(s0, xs) && i < |Exec(s0, xs).net| && OneShot(Exec(s0, xs).net[i])
    requires Exec(s0, xs).net[i].dst in s0.nodes
    ensures var s := Exec(s0, xs); var p := s.net[i];
      p.dst in s.nodes && multiset(s.nodes[p.dst].handled)[(p.src, p.msg)] <= multiset(xs)[Deliver(i)]
  {
    hide Inv, Runs, Exec, History, Once;
    var s := Exec(s0, xs);
    var p := s.net[i];
    assert Reachable(s);
    InitInv(s0);
    DatagramBelongs(s, p);
    forall j | 0 <= j < |s.net| && s.net[j] == p ensures j == i {
      UnreliableAtMostOnce(s, i, j);
    }
    ArrivalsAre(s0, xs, i, p);
    HandledPerArrival(s0, xs, p.dst, p.src, p.msg);
  }
}
