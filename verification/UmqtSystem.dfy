/** UMQT processes over a datagram network, and the invariant of every reachable state.
    `net` is the log of all datagrams ever sent. Delivery picks any entry, in any order and any number of
    times, so datagrams may be lost, duplicated and reordered, but never forged. */
module UmqtSystem {
  import opened Common
  import opened Decimal
  import opened Headers
  import opened UmqtWire
  import opened UmqtNode
  import opened UmqtClient

  datatype State = State(nodes: map<Addr, Node>, net: seq<Packet>)

  datatype Action = Run(a: Addr, act: Act) | Deliver(i: nat)

  predicate Enabled(s: State, x: Action) {
    match x
    case Run(a, act) => a in s.nodes && CanAct(s.nodes[a], act)
    case Deliver(i) => i < |s.net| && s.net[i].dst in s.nodes && s.nodes[s.net[i].dst].acceptor.Ready?
  }

  /** What the process at `a` did: its new state and the datagrams it sent. */
  function Update(s: State, a: Addr, r: (Node, seq<Packet>)): State {
    State(s.nodes[a := r.0], s.net + r.1)
  }

  /** The acceptor of `b` gets the bytes of packet `p` that fit its buffer. */
  function Arrive(s: State, p: Packet): (Node, seq<Packet>)
    requires p.dst in s.nodes
  {
    var n := s.nodes[p.dst];
    Accept(p.dst, n, p.src, Receive(n.block, p.msg))
  }

  function Next(s: State, x: Action): State
    requires Enabled(s, x)
  {
    match x
    case Run(a, act) => Update(s, a, Do(a, s.nodes[a], act))
    case Deliver(i) => Update(s, s.net[i].dst, Arrive(s, s.net[i]))
  }

  predicate Runs(s: State, xs: seq<Action>)
    decreases |xs|
  {
    xs == [] || (Enabled(s, xs[0]) && Runs(Next(s, xs[0]), xs[1..]))
  }

  function Exec(s: State, xs: seq<Action>): State
    requires Runs(s, xs)
    decreases |xs|
  {
    if xs == [] then s else Exec(Next(s, xs[0]), xs[1..])
  }

  ghost predicate Init(s: State) {
    s.net == [] && forall a | a in s.nodes :: s.nodes[a] == NewNode(s.nodes[a].block)
  }

  /** Some run of some freshly started processes ends in `s`. */
  ghost predicate Reachable(s: State) {
    exists s0: State, xs: seq<Action> :: Init(s0) && Runs(s0, xs) && Exec(s0, xs) == s
  }

  // ---------------------------------------------------------------- invariant

  predicate ReceivedAt(s: State, b: Addr, from: Addr, m: Msg) {
    b in s.nodes && (from, m) in s.nodes[b].received
  }

  predicate InviteOk(s: State, p: Packet)
    requires p.src in s.nodes
  {
    var k := IdOf(p.msg.id);
    && k in s.nodes[p.src].calls
    && (var c := s.nodes[p.src].calls[k];
        Rank(c.pc) >= 4 && p.dst in c.servers && p.msg == InviteMsg(k, c))
  }

  predicate VoteOk(s: State, p: Packet)
    requires p.src in s.nodes
  {
    && Packet(p.dst, p.src, Answer(Invite, p.msg)) in s.net && p.msg == Answer(Volunteer, p.msg)
    && Fits(s.nodes[p.src].block, Answer(Invite, p.msg))
  }

  predicate DataOk(s: State, p: Packet)
    requires p.src in s.nodes
  {
    var k := IdOf(p.msg.id);
    && k in s.nodes[p.src].tasks
    && (var t := s.nodes[p.src].tasks[k]; p.dst == t.dst && p.msg == t.data)
  }

  predicate AckedBy(s: State, a: Addr, k: nat, b: Addr) {
    && a in s.nodes && k in s.nodes[a].tasks
    && (var t := s.nodes[a].tasks[k]; t.dst == b && t.data.reliable && ReceivedAt(s, b, a, t.data))
  }

  predicate AckOk(s: State, p: Packet) {
    var k := IdOf(p.msg.id);
    AckedBy(s, p.dst, k, p.src) && p.msg == Answer(Ack, s.nodes[p.dst].tasks[k].data)
  }

  predicate PacketOk(s: State, p: Packet) {
    && p.src in s.nodes && Sized(p.msg) && Sendable(p.msg)
    && match p.msg.kind
       case Invite => InviteOk(s, p)
       case Volunteer => VoteOk(s, p)
       case Data => DataOk(s, p)
       case Ack => AckOk(s, p)
  }

  /** A finish notifier that is gone was taken by an acknowledgement of the chosen server. */
  predicate FinishOk(s: State, a: Addr, k: nat, c: Call)
    requires a in s.nodes
  {
    c.reliable && Rank(c.pc) >= 4 && k !in s.nodes[a].finish ==>
      k in s.nodes[a].tasks && AckedBy(s, a, k, s.nodes[a].tasks[k].dst) &&
      Fits(s.nodes[a].block, Answer(Ack, s.nodes[a].tasks[k].data))
  }

  /** Receipt `r` at `b` is what its buffer makes of data datagram `p`. */
  predicate ReadFrom(block: nat, b: Addr, r: (Addr, Msg), p: Packet) {
    p.src == r.0 && p.dst == b && p.msg.kind == Data && Receive(block, p.msg) == Some(r.1)
  }

  ghost predicate ReceiptOk(s: State, b: Addr, r: (Addr, Msg))
    requires b in s.nodes
  {
    exists p | p in s.net :: ReadFrom(s.nodes[b].block, b, r, p)
  }

  ghost predicate ServerOk(s: State, b: Addr)
    requires b in s.nodes
  {
    var n := s.nodes[b];
    && (forall r | r in n.received :: r.1.kind == Data && ReceiptOk(s, b, r))
    && (forall r | r in n.handled :: r in n.received && r.1.topic in n.consumers)
    && (n.acceptor.Dispatching? ==> (n.acceptor.from, n.acceptor.data) in n.received)
  }

  ghost predicate NodeOk(s: State, a: Addr)
    requires a in s.nodes
  {
    && ClientOk(s.nodes[a]) && ServerOk(s, a)
    && (forall k | k in s.nodes[a].calls :: FinishOk(s, a, k, s.nodes[a].calls[k]))
  }

  ghost predicate Inv(s: State) {
    && (forall a | a in s.nodes :: NodeOk(s, a))
    && (forall p | p in s.net :: PacketOk(s, p))
  }

  lemma InitInv(s: State)
    requires Init(s)
    ensures Inv(s)
  {
    forall a | a in s.nodes ensures NodeOk(s, a) {
      InitClientOk(s.nodes[a].block);
    }
  }

  // ---------------------------------------------------------------- what only grows

  predicate CallGrows(n: Node, n': Node, k: nat)
    requires k in n.calls
  {
    && k in n'.calls && n'.calls[k] == n.calls[k].(pc := n'.calls[k].pc)
    && Rank(n.calls[k].pc) <= Rank(n'.calls[k].pc)
  }

  predicate TaskGrows(n: Node, n': Node, k: nat)
    requires k in n.tasks
  {
    k in n'.tasks && n'.tasks[k] == n.tasks[k].(alive := n'.tasks[k].alive)
  }

  ghost predicate NodeGrows(n: Node, n': Node) {
    && n'.block == n.block && n.received <= n'.received
    && (forall k | k in n.calls :: CallGrows(n, n', k))
    && (forall k | k in n.tasks :: TaskGrows(n, n', k))
  }

  ghost predicate Grows(s: State, s': State) {
    && s'.nodes.Keys == s.nodes.Keys && s.net <= s'.net
    && (forall a | a in s.nodes :: NodeGrows(s.nodes[a], s'.nodes[a]))
  }

  /** A sender is only spawned for a request that has none yet. */
  lemma SpawnIsFresh(n: Node)
    requires ClientOk(n) && (n.acceptor.TakingJob? || n.acceptor.GettingSent?)
    ensures n.acceptor.k !in n.tasks
  {
    hide Sized, Fits, Sendable, Show, IdOf, PcOk, DiscoveryOk, NotifiersOk;
    assert KeyOk(n, n.acceptor.k);
  }

  lemma AcceptorGrowsKey(self: Addr, n: Node, act: Act, k: nat)
    requires CanAct(n, act) && (act.DoTakeJob? || act.DoGetSent? || act.DoDropSent? || act.DoDispatch?)
    requires n.acceptor.TakingJob? || n.acceptor.GettingSent? ==> n.acceptor.k !in n.tasks
    ensures var n' := Do(self, n, act).0;
      && n'.block == n.block && n'.received == n.received
      && (k in n.calls ==> CallGrows(n, n', k)) && (k in n.tasks ==> TaskGrows(n, n', k))
  {
    hide SizedSend, InviteMsg, Emit, DataMsg;
  }

  lemma CallerGrowsKey(self: Addr, n: Node, act: Act, k: nat)
    requires CanAct(n, act) && !act.DoTakeJob? && !act.DoGetSent? && !act.DoDropSent? && !act.DoDispatch?
    ensures var n' := Do(self, n, act).0;
      && n'.block == n.block && n'.received == n.received
      && (k in n.calls ==> CallGrows(n, n', k)) && (k in n.tasks ==> TaskGrows(n, n', k))
  {
    hide SizedSend, InviteMsg, Emit, DataMsg;
  }

  lemma DoGrowsKey(self: Addr, n: Node, act: Act, k: nat)
    requires CanAct(n, act)
    requires n.acceptor.TakingJob? || n.acceptor.GettingSent? ==> n.acceptor.k !in n.tasks
    ensures var n' := Do(self, n, act).0;
      && n'.block == n.block && n'.received == n.received
      && (k in n.calls ==> CallGrows(n, n', k)) && (k in n.tasks ==> TaskGrows(n, n', k))
  {
    hide SizedSend, InviteMsg, Emit, DataMsg, CanAct, Do;
    if act.DoTakeJob? || act.DoGetSent? || act.DoDropSent? || act.DoDispatch? {
      AcceptorGrowsKey(self, n, act, k);
    } else {
      CallerGrowsKey(self, n, act, k);
    }
  }

  lemma DoGrows(self: Addr, n: Node, act: Act)
    requires ClientOk(n) && CanAct(n, act)
    ensures NodeGrows(n, Do(self, n, act).0)
  {
    hide CanAct, Do, CallGrows, TaskGrows, CallOk, Tracked;
    if n.acceptor.TakingJob? || n.acceptor.GettingSent? {
      SpawnIsFresh(n);
    }
    DoGrowsKey(self, n, act, 0);
    forall k | k in n.calls ensures CallGrows(n, Do(self, n, act).0, k) {
      DoGrowsKey(self, n, act, k);
    }
    forall k | k in n.tasks ensures TaskGrows(n, Do(self, n, act).0, k) {
      DoGrowsKey(self, n, act, k);
    }
  }

  lemma AcceptGrows(self: Addr, n: Node, from: Addr, arrived: Option<Msg>)
    ensures NodeGrows(n, Accept(self, n, from, arrived).0)
  {
    hide IdOf;
  }

  lemma UpdateGrows(s: State, a: Addr, r: (Node, seq<Packet>))
    requires a in s.nodes && NodeGrows(s.nodes[a], r.0)
    ensures Grows(s, Update(s, a, r))
  {
  }

  /** What holds of a datagram keeps holding. */
  lemma PacketOkGrows(s: State, s': State, p: Packet)
    requires Grows(s, s') && PacketOk(s, p)
    ensures PacketOk(s', p)
  {
    hide Sized, Fits, Sendable, IdOf, Show;
    if p.msg.kind == Volunteer {
      assert s'.net[..|s.net|] == s.net;
    }
  }
}
