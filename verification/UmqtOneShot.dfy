/** The one datagram of an unreliable send: it goes out when its task ends, and if it arrives it is handled. */
module UmqtOneShot {
  import opened Common
  import opened Decimal
  import opened Headers
  import opened UmqtWire
  import opened UmqtNode
  import opened UmqtClient
  import opened UmqtSystem
  import opened UmqtInvariant
  import opened UmqtHistory
  import opened UmqtSafety
  import opened UmqtHandling
  import opened UmqtOrigins
  import opened UmqtSchedules
  import opened UmqtLiveness
  import opened UmqtWitness
  import opened UmqtServers

  // ---------------------------------------------------------------- a task that has ended has sent

  /** If the one-shot task of `k` has ended, its datagram is in the log, unless it is too large for UDP. */
  predicate SentOff(s: State, a: Addr, k: nat)
    requires a in s.nodes
  {
    var n := s.nodes[a];
    Halted(n, k) && !n.tasks[k].data.reliable && Sendable(n.tasks[k].data) ==>
      Packet(a, n.tasks[k].dst, n.tasks[k].data) in s.net
  }

  lemma DoSendsOff(self: Addr, n: Node, act: Act, k: nat)
    requires CanAct(n, act)
    ensures var (n', out) := Do(self, n, act);
      Halted(n', k) && !n'.tasks[k].data.reliable && Sendable(n'.tasks[k].data) ==>
        (Halted(n, k) && n'.tasks[k] == n.tasks[k]) || Packet(self, n'.tasks[k].dst, n'.tasks[k].data) in out
  {
    hide SizedSend, InviteMsg, Sendable, DataMsg;
  }

  lemma StepSendsOff(s: State, x: Action, a: Addr, k: nat)
    requires Enabled(s, x) && a in s.nodes && SentOff(s, a, k)
    ensures a in Next(s, x).nodes && SentOff(Next(s, x), a, k)
  {
    hide CanAct, Do, Accept, Receive, Sendable;
    match x
    case Run(b, act) => if a == b { DoSendsOff(a, s.nodes[a], act, k); }
    case Deliver(i) =>
      var p := s.net[i];
      AcceptFacts(p.dst, s.nodes[p.dst], p.src, Receive(s.nodes[p.dst].block, p.msg), k);
  }

  lemma {:induction false} ExecSendsOff(s: State, xs: seq<Action>, a: Addr, k: nat)
    requires Runs(s, xs) && a in s.nodes && SentOff(s, a, k)
    ensures a in Exec(s, xs).nodes && SentOff(Exec(s, xs), a, k)
    decreases |xs|
  {
    hide Enabled, Next, SentOff;
    if xs != [] {
      StepSendsOff(s, xs[0], a, k);
      ExecSendsOff(Next(s, xs[0]), xs[1..], a, k);
    }
  }

  /** In every reachable state the task of an unreliable send has ended if and only if its datagram is in the
      log, addressed to the server that won and carrying the call's id, topic and bytes, if UDP can carry it. */
  lemma EndedIffSent(s: State, a: Addr, k: nat)
    requires Reachable(s) && a in s.nodes && k in s.nodes[a].calls && !s.nodes[a].calls[k].reliable
    requires var c := s.nodes[a].calls[k]; Sendable(Msg(Data, Show(k), false, c.topic, c.bytes))
    ensures var n := s.nodes[a];
      k in n.tasks && !n.tasks[k].alive <==>
        exists b: Addr :: Packet(a, b, Msg(Data, Show(k), false, n.calls[k].topic, n.calls[k].bytes)) in s.net
    ensures var n := s.nodes[a];
      forall b: Addr | Packet(a, b, Msg(Data, Show(k), false, n.calls[k].topic, n.calls[k].bytes)) in s.net ::
        Chosen(n, k) == Some(b)
  {
    hide Inv, History, Once, Init, Runs, Exec, Show, IdOf, Sendable;
    ReachableHistory(s);
    var s0, xs := RunTo(s);
    NodeFromStart(s0, xs, a);
    InitSentOff(s0, a, k);
    ExecSendsOff(s0, xs, a, k);
    var c := s.nodes[a].calls[k];
    if Halted(s.nodes[a], k) {
      CargoIsData(s, a, k);
      assert Packet(a, s.nodes[a].tasks[k].dst, Msg(Data, Show(k), false, c.topic, c.bytes)) in s.net;
    }
    forall b: Addr | Packet(a, b, Msg(Data, Show(k), false, c.topic, c.bytes)) in s.net
      ensures Halted(s.nodes[a], k) && Chosen(s.nodes[a], k) == Some(b)
    {
      LoggedIsSpent(s, a, k, b);
    }
  }

  /** The one datagram of an unreliable call. */
  function PayloadOf(k: nat, c: Call): Msg {
    Msg(Data, Show(k), false, c.topic, c.bytes)
  }

  lemma LoggedIsSpent(s: State, a: Addr, k: nat, b: Addr)
    requires Inv(s) && Once(s) && a in s.nodes && k in s.nodes[a].calls
    requires Packet(a, b, PayloadOf(k, s.nodes[a].calls[k])) in s.net
    ensures Halted(s.nodes[a], k) && Chosen(s.nodes[a], k) == Some(b)
  {
    hide Inv, Show, IdOf;
    var p := Packet(a, b, PayloadOf(k, s.nodes[a].calls[k]));
    CallIdFits(s, a, k);
    IdOfShow(k);
    DataIsCargo(s, p);
    assert Spent(s, p);
  }

  lemma RunTo(s: State) returns (s0: State, xs: seq<Action>)
    requires Reachable(s)
    ensures Init(s0) && Runs(s0, xs) && Exec(s0, xs) == s
  {
    hide Init, Runs, Exec;
    s0, xs :| Init(s0) && Runs(s0, xs) && Exec(s0, xs) == s;
  }

  lemma NodeFromStart(s0: State, xs: seq<Action>, a: Addr)
    requires Init(s0) && Runs(s0, xs) && a in Exec(s0, xs).nodes
    ensures a in s0.nodes
  {
    hide Inv, Runs, Exec;
    InitInv(s0);
    ExecKeepsInv(s0, xs);
    NodesStay(s0, Exec(s0, xs), a);
  }

  lemma InitSentOff(s: State, a: Addr, k: nat)
    requires Init(s) && a in s.nodes
    ensures SentOff(s, a, k)
  {
  }

  // ---------------------------------------------------------------- it can go out and arrive

  /** From any open unreliable call to its datagram on the network. */
  lemma RunToSent(s: State, a: Addr, k: nat, b: Addr) returns (xs: seq<Action>, t: State)
    requires Reachable(s) && Ctx(s, a, k, b) && !s.nodes[a].calls[k].reliable
    requires Sendable(PayloadOf(k, s.nodes[a].calls[k]))
    ensures Reaches(s, xs, t, a, k, b) && Packet(a, b, PayloadOf(k, s.nodes[a].calls[k])) in t.net
  {
    hide Inv, Sendable, Show, Leads, Chosen, Electable, Grows, Sized, Fits, Reachable, CanAct, Acked, Internal;
    var ys, u;
    ElectableIsCall(s, a, k, b);
    xs, t := ReachElected(s, a, k, b);
    GrowsAt(s, t, a, k);
    ys, u := Equip(t, a, k, b);
    ReachesThen(s, xs, t, ys, u, a, k, b);
    GrowsAt(t, u, a, k);
    xs, t := xs + ys, u;
    CargoIsData(t, a, k);
    ChosenIsTask(t.nodes[a], k);
    if t.nodes[a].tasks[k].alive {
      xs, t := Then(s, xs, t, Run(a, DoTransmit(k)), a, k, b) by {
        TransmitIsEnabled(t, a, k);
      }
    } else {
      LeadsReachable(s, xs, t);
      EndedIffSent(t, a, k);
    }
  }

  lemma TransmitIsEnabled(s: State, a: Addr, k: nat)
    requires a in s.nodes && Running(s.nodes[a], k)
    ensures Enabled(s, Run(a, DoTransmit(k))) && Internal(Run(a, DoTransmit(k)))
  {
  }

  lemma LeadsReachable(s: State, xs: seq<Action>, t: State)
    requires Reachable(s) && Leads(s, xs, t)
    ensures Reachable(t)
  {
    hide Init, Runs, Exec;
    var s0, zs := RunTo(s);
    IsLeads(s0, zs, s);
    LeadsThen(s0, zs, s, xs, t);
    LeadsIs(s0, zs + xs, t);
  }

  /** An unreliable message can be delivered: from every reachable state, while some server can win the send and
      its buffer takes the data, some schedule of internal steps puts the one datagram on the network, that
      server receives it whole, and handles it if it has a handler for the topic. */
  lemma UnreliableDelivers(s: State, a: Addr, k: nat, b: Addr) returns (xs: seq<Action>)
    requires Reachable(s) && Candidate(s, a, k, b) && !s.nodes[a].calls[k].reliable
    requires var c := s.nodes[a].calls[k]; Fits(s.nodes[b].block, Msg(Data, Show(k), false, c.topic, c.bytes))
    ensures Runs(s, xs) && forall x | x in xs :: Internal(x)
    ensures var c := s.nodes[a].calls[k]; var data := Msg(Data, Show(k), false, c.topic, c.bytes);
            var t := Exec(s, xs);
      && Packet(a, b, data) in t.net && ReceivedAt(t, b, a, data)
      && (c.topic in s.nodes[b].consumers ==> (a, data) in t.nodes[b].handled)
  {
    hide Inv, Show, Leads, Chosen, Electable, Grows, Fits, Sendable, Reachable, Runs, Exec;
    ReachableInv(s);
    ElectableIsCall(s, a, k, b);
    var data := PayloadOf(k, s.nodes[a].calls[k]);
    FitsIsSendable(s.nodes[b].block, data);
    var ys, t, zs, u;
    ys, t := RunToSent(s, a, k, b);
    GrowsAt(s, t, a, k);
    zs, u := Drain(t, b, a, k, b);
    ReachesThen(s, ys, t, zs, u, a, k, b);
    xs, t := DeliverWhole(s, ys + zs, u, Packet(a, b, data), a, k, b);
    assert t.nodes[b].acceptor == Dispatching(a, data);
    assert Enabled(t, Run(b, DoDispatch)) && Internal(Run(b, DoDispatch));
    xs, u := Then(s, xs, t, Run(b, DoDispatch), a, k, b);
    LeadsIs(s, xs, u);
    if data.topic in s.nodes[b].consumers {
      ConsumersStay(s, xs, u, b, data.topic);
    }
  }

  /** The same over a run: a small unreliable message to a topic whose handler and server were registered before
      the `send` can be handled, whatever else was registered or sent before. */
  lemma UnreliableCanBeHandled(s0: State, xs: seq<Action>, a: Addr, k: nat, topic: string, bytes: Bytes, b: Addr)
    returns (ys: seq<Action>)
    requires Init(s0) && Runs(s0, Opening(xs, a, k, topic, bytes, false)) && a in s0.nodes && b in s0.nodes
    requires Run(a, DoAddServer(topic, b)) in xs && Run(b, DoOn(topic)) in xs
    requires Small(s0.nodes[a].block, k, topic, bytes) && Small(s0.nodes[b].block, k, topic, bytes)
    ensures Runs(s0, Opening(xs, a, k, topic, bytes, false) + ys) && forall x | x in ys :: Internal(x)
    ensures var s := Exec(s0, Opening(xs, a, k, topic, bytes, false) + ys);
      b in s.nodes && (a, Msg(Data, Show(k), false, topic, bytes)) in s.nodes[b].handled
  {
    hide Inv, Runs, Exec, Leads, Grows, Chosen, Opening, Fits, Sendable, Show, Electable, SizedSend, Known, Reachable;
    var zs := Opening(xs, a, k, topic, bytes, false);
    SmallFits(s0.nodes[b].block, Msg(Invite, Show(k), false, topic, []));
    SmallFits(s0.nodes[a].block, Msg(Volunteer, Show(k), false, topic, []));
    SmallFits(s0.nodes[b].block, Msg(Data, Show(k), false, topic, bytes));
    Opened(s0, xs, a, k, topic, bytes, false);
    assert zs + [] == zs;
    ElectableIff(s0, xs, a, k, topic, bytes, false, [], b);
    InitInv(s0);
    ExecKeepsInv(s0, zs);
    var s := Exec(s0, zs);
    BlocksStay(s0, s);
    IsReachable(s0, zs);
    Registrations(s0, zs, b, topic);
    assert Run(b, DoOn(topic)) in zs by { OpeningHas(xs, a, k, topic, bytes, false, Run(b, DoOn(topic))); }
    ys := UnreliableDelivers(s, a, k, b);
    RunsThen(s0, zs, ys);
  }

  lemma IsReachable(s0: State, xs: seq<Action>)
    requires Init(s0) && Runs(s0, xs)
    ensures Reachable(Exec(s0, xs))
  {
    hide Init, Runs, Exec;
  }

  lemma OpeningHas(xs: seq<Action>, a: Addr, k: nat, topic: string, bytes: Bytes, reliable: bool, x: Action)
    requires x in xs
    ensures x in Opening(xs, a, k, topic, bytes, reliable)
  {
  }
}
