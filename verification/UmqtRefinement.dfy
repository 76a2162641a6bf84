/** A reliable send refines a four-phase request that knows nothing of maps, permits or datagrams. */
module UmqtRefinement {
  import opened Common
  import opened Decimal
  import opened Headers
  import opened UmqtWire
  import opened UmqtNode
  import opened UmqtClient
  import opened UmqtSystem
  import opened UmqtInvariant
  import opened UmqtHistory
  import opened UmqtSafety

  /** The abstract request: nobody chosen, a server chosen, the chosen server has the bytes, done. */
  datatype Phase =
    | Pending
    | Assigned(server: Addr)
    | Received(server: Addr, bytes: Bytes)
    | Completed(server: Addr, bytes: Bytes)

  /** One abstract step of a request for `bytes` at one of `servers`; standing still is allowed. */
  predicate PhaseStep(servers: seq<Addr>, bytes: Bytes, before: Phase, after: Phase) {
    || after == before
    || (before.Pending? && after.Assigned? && after.server in servers)
    || (before.Assigned? && after == Received(before.server, bytes))
    || (before.Received? && after == Completed(before.server, before.bytes))
  }

  /** The phase a concrete state stands for. */
  function PhaseOf(s: State, a: Addr, k: nat): Phase
    requires ReliableCall(s, a, k)
  {
    var n := s.nodes[a];
    if k in n.tasks then
      var t := n.tasks[k];
      if n.calls[k].pc == Returned then Completed(t.dst, t.data.bytes)
      else if ReceivedAt(s, t.dst, a, t.data) then Received(t.dst, t.data.bytes)
      else Assigned(t.dst)
    else if Busy(n, k) then Assigned(n.acceptor.from)
    else Pending
  }

  lemma ReceivedHasTask(s: State, a: Addr, k: nat, b: Addr)
    requires Inv(s) && ReliableCall(s, a, k) && ReceivedAt(s, b, a, Payload(k, s.nodes[a].calls[k]))
    ensures k in s.nodes[a].tasks
  {
    hide NodeOk, Show, IdOf, Fits, Sized, Sendable;
    var m := Payload(k, s.nodes[a].calls[k]);
    CallIdFits(s, a, k);
    IdOfShow(k);
    ReceivedIsCargo(s, b, a, m);
  }

  /** Request `k` seen from its own process: who is chosen, what is carried, and whether `send` is done. */
  datatype Local = Unchosen | Choosing(from: Addr) | Carrying(task: Task, done: bool)

  function LocalOf(n: Node, k: nat): Local
    requires k in n.calls
  {
    if k in n.tasks then Carrying(n.tasks[k].(alive := true), n.calls[k].pc == Returned)
    else if Busy(n, k) then Choosing(n.acceptor.from)
    else Unchosen
  }

  predicate LocalStep(n: Node, k: nat, c: Call, before: Local, after: Local) {
    || after == before
    || (before.Choosing? && after == Carrying(Task(before.from, Payload(k, c), true), false))
    || (before.Carrying? && after == before.(done := true) && k in n.finishPermits)
  }

  lemma AcceptorLocal(self: Addr, n: Node, act: Act, k: nat)
    requires KeyOk(n, k) && CanAct(n, act) && k in n.calls && n.calls[k].reliable
    requires act.DoTakeJob? || act.DoGetSent? || act.DoDropSent? || act.DoDispatch?
    ensures var n' := Do(self, n, act).0;
      n'.calls == n.calls && LocalStep(n, k, n.calls[k], LocalOf(n, k), LocalOf(n', k))
  {
    hide SizedSend, Show, Fits, Sendable, Answer;
  }

  lemma CallerLocal(self: Addr, n: Node, act: Act, k: nat)
    requires KeyOk(n, k) && CanAct(n, act) && k in n.calls && n.calls[k].reliable
    requires !act.DoTakeJob? && !act.DoGetSent? && !act.DoDropSent? && !act.DoDispatch?
    ensures var n' := Do(self, n, act).0;
      && k in n'.calls && n'.calls[k] == n.calls[k].(pc := n'.calls[k].pc)
      && LocalStep(n, k, n.calls[k], LocalOf(n, k), LocalOf(n', k))
  {
    hide PcOk, Show, SizedSend, Payload, Fits, Sendable, Vote;
  }

  lemma DoLocal(self: Addr, n: Node, act: Act, k: nat)
    requires KeyOk(n, k) && CanAct(n, act) && k in n.calls && n.calls[k].reliable
    ensures var n' := Do(self, n, act).0;
      && k in n'.calls && n'.calls[k] == n.calls[k].(pc := n'.calls[k].pc)
      && LocalStep(n, k, n.calls[k], LocalOf(n, k), LocalOf(n', k))
  {
    hide KeyOk, CanAct, Do, LocalStep, LocalOf;
    if act.DoTakeJob? || act.DoGetSent? || act.DoDropSent? || act.DoDispatch? {
      AcceptorLocal(self, n, act, k);
    } else {
      CallerLocal(self, n, act, k);
    }
  }

  /** The phase from the local view and what the chosen server has received. */
  function Phased(s: State, a: Addr, l: Local): Phase {
    match l
    case Unchosen => Pending
    case Choosing(from) => Assigned(from)
    case Carrying(t, done) =>
      if done then Completed(t.dst, t.data.bytes)
      else if ReceivedAt(s, t.dst, a, t.data) then Received(t.dst, t.data.bytes)
      else Assigned(t.dst)
  }

  lemma PhaseIsPhased(s: State, a: Addr, k: nat)
    requires ReliableCall(s, a, k)
    ensures PhaseOf(s, a, k) == Phased(s, a, LocalOf(s.nodes[a], k))
  {
  }

  /** A permit to finish means the chosen server has the data. */
  lemma FinishMeansReceived(s: State, a: Addr, k: nat)
    requires Inv(s) && ReliableCall(s, a, k) && k in s.nodes[a].finishPermits
    ensures k in s.nodes[a].tasks
    ensures ReceivedAt(s, s.nodes[a].tasks[k].dst, a, s.nodes[a].tasks[k].data)
  {
    hide ServerOk, PacketOk, Show, IdOf, Sized, Fits, Sendable, PcOk, DiscoveryOk, CargoOk;
    assert NodeOk(s, a) && KeyOk(s.nodes[a], k) && FinishOk(s, a, k, s.nodes[a].calls[k]);
  }

  lemma DoKeepsReceived(s: State, a: Addr, act: Act, b: Addr, from: Addr, m: Msg)
    requires Enabled(s, Run(a, act))
    ensures ReceivedAt(Next(s, Run(a, act)), b, from, m) == ReceivedAt(s, b, from, m)
  {
    hide CanAct, Do;
    DoServerFacts(a, s.nodes[a], act);
  }

  /** A step of the client's own tasks moves its request by at most one phase. */
  lemma RunRefines(s: State, a: Addr, b: Addr, act: Act, k: nat)
    requires Inv(s) && Enabled(s, Run(b, act)) && ReliableCall(s, a, k)
    ensures ReliableCall(Next(s, Run(b, act)), a, k)
    ensures var c := s.nodes[a].calls[k];
      PhaseStep(c.servers, c.bytes, PhaseOf(s, a, k), PhaseOf(Next(s, Run(b, act)), a, k))
  {
    hide NodeOk, PacketOk, CanAct, Do, KeyOk, LocalOf, ReceivedAt, PhaseOf, Payload;
    var n, s', c := s.nodes[a], Next(s, Run(b, act)), s.nodes[a].calls[k];
    KeyOkAt(s, a, k);
    if a == b {
      DoLocal(a, n, act, k);
    }
    PhaseIsPhased(s, a, k);
    PhaseIsPhased(s', a, k);
    var l, l' := LocalOf(n, k), LocalOf(s'.nodes[a], k);
    if l'.Carrying? {
      DoKeepsReceived(s, b, act, l'.task.dst, a, l'.task.data);
    }
    if l.Choosing? && l'.Carrying? {
      if ReceivedAt(s, l'.task.dst, a, l'.task.data) {
        ReceivedHasTask(s, a, k, l'.task.dst);
        HasTaskIsCarrying(n, k);
      }
    } else if l.Carrying? {
      HasTaskIsCarrying(n, k);
      CarryingIs(s, a, k);
      if k in n.finishPermits {
        FinishMeansReceived(s, a, k);
      }
    }
  }

  lemma HasTaskIsCarrying(n: Node, k: nat)
    requires k in n.calls
    ensures LocalOf(n, k).Carrying? <==> k in n.tasks
  {
  }

  lemma CarryingIs(s: State, a: Addr, k: nat)
    requires Inv(s) && ReliableCall(s, a, k) && k in s.nodes[a].tasks
    ensures var l := LocalOf(s.nodes[a], k); var t := s.nodes[a].tasks[k];
      l.Carrying? && l.task.dst == t.dst && l.task.data == t.data && t.data.bytes == s.nodes[a].calls[k].bytes
  {
    hide Inv;
    CargoIsData(s, a, k);
  }

  /** A delivery elects a server or lets the elected one have the data. */
  lemma DeliverRefines(s: State, a: Addr, i: nat, k: nat)
    requires Inv(s) && Enabled(s, Deliver(i)) && ReliableCall(s, a, k)
    ensures ReliableCall(Next(s, Deliver(i)), a, k)
    ensures var c := s.nodes[a].calls[k];
      PhaseStep(c.servers, c.bytes, PhaseOf(s, a, k), PhaseOf(Next(s, Deliver(i)), a, k))
  {
    hide NodeOk, PacketOk, KeyOk, Receive, Garbled, IdOf, Fits, Sendable;
    var p := s.net[i];
    var n, s' := s.nodes[a], Next(s, Deliver(i));
    PacketSized(s, p);
    ReceivedKind(s.nodes[p.dst].block, p.msg);
    AcceptFacts(p.dst, s.nodes[p.dst], p.src, Receive(s.nodes[p.dst].block, p.msg), k);
    if k in n.tasks {
      CargoIsData(s, a, k);
    } else if p.msg.kind == Volunteer && p.dst == a && IdOf(p.msg.id) == k {
      VoteIsHonest(s, p);
    }
  }

  lemma StepRefines(s: State, x: Action, a: Addr, k: nat)
    requires Inv(s) && Enabled(s, x) && ReliableCall(s, a, k)
    ensures ReliableCall(Next(s, x), a, k)
    ensures var c := s.nodes[a].calls[k];
      PhaseStep(c.servers, c.bytes, PhaseOf(s, a, k), PhaseOf(Next(s, x), a, k))
  {
    hide Inv, PhaseStep, PhaseOf, Enabled, Next;
    match x
    case Run(b, act) => RunRefines(s, a, b, act, k);
    case Deliver(i) => DeliverRefines(s, a, i, k);
  }

  /** Refinement: every concrete step is one abstract step of every reliable request, or leaves it alone;
      in particular no phase is ever left backwards. */
  lemma Refines(s: State, x: Action, a: Addr, k: nat)
    requires Reachable(s) && Enabled(s, x) && ReliableCall(s, a, k)
    ensures ReliableCall(Next(s, x), a, k)
    ensures var c := s.nodes[a].calls[k];
      PhaseStep(c.servers, c.bytes, PhaseOf(s, a, k), PhaseOf(Next(s, x), a, k))
  {
    ReachableInv(s);
    StepRefines(s, x, a, k);
  }
}
