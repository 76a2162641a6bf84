/** The order in which datagrams enter the network: invite, vote, data, acknowledgement; and how often the
    data of an unreliable send does. */
module UmqtHistory {
  import opened Common
  import opened Decimal
  import opened Headers
  import opened UmqtWire
  import opened UmqtNode
  import opened UmqtClient
  import opened UmqtSystem
  import opened UmqtInvariant

  /** The earlier datagram in the opposite direction that `p` answers. */
  ghost predicate Justified(earlier: seq<Packet>, p: Packet) {
    match p.msg.kind
    case Invite => true
    case Volunteer => Packet(p.dst, p.src, Answer(Invite, p.msg)) in earlier
    case Data => Packet(p.dst, p.src, Answer(Volunteer, p.msg)) in earlier
    case Ack => exists q | q in earlier ::
        q.src == p.dst && q.dst == p.src && q.msg.kind == Data && Answer(Ack, q.msg) == p.msg
  }

  ghost predicate Ordered(net: seq<Packet>) {
    forall j | 0 <= j < |net| :: Justified(net[..j], net[j])
  }

  /** The vote that elected a server is in the log before its data is. */
  predicate ElectedOk(s: State, a: Addr, k: nat)
    requires a in s.nodes
  {
    var n := s.nodes[a];
    && (k in n.tasks ==> Packet(n.tasks[k].dst, a, Answer(Volunteer, n.tasks[k].data)) in s.net)
    && (n.acceptor.TakingJob? && n.acceptor.k == k ==>
          n.acceptor.vote.kind == Volunteer && Packet(n.acceptor.from, a, Answer(Volunteer, n.acceptor.vote)) in s.net)
    && (n.acceptor.GettingSent? && n.acceptor.k == k ==>
          Packet(n.acceptor.from, a, Answer(Volunteer, n.acceptor.data)) in s.net)
  }

  ghost predicate History(s: State) {
    Ordered(s.net) && forall a, k | a in s.nodes :: ElectedOk(s, a, k)
  }

  lemma OrderedAppend(net: seq<Packet>, out: seq<Packet>)
    requires Ordered(net) && |out| <= 1
    requires forall p | p in out :: Justified(net, p)
    ensures Ordered(net + out)
  {
    hide Justified;
    var all := net + out;
    forall j | 0 <= j < |all| ensures Justified(all[..j], all[j]) {
      if j < |net| {
        assert all[..j] == net[..j] && all[j] == net[j];
      } else {
        assert all[..j] == net && all[j] in out;
      }
    }
  }

  lemma RunElected(s: State, a: Addr, act: Act, k: nat)
    requires a in s.nodes && CanAct(s.nodes[a], act) && ElectedOk(s, a, k)
    ensures ElectedOk(Next(s, Run(a, act)), a, k)
  {
    hide CanAct, Do, ElectedOk;
    if act.DoTakeJob? || act.DoGetSent? {
      HandoverElected(s, a, act, k);
    } else {
      KeepsElection(a, s.nodes[a], act, k);
      SameElected(s, Next(s, Run(a, act)), a, k);
    }
  }

  lemma HandoverElected(s: State, a: Addr, act: Act, k: nat)
    requires a in s.nodes && CanAct(s.nodes[a], act) && ElectedOk(s, a, k) && (act.DoTakeJob? || act.DoGetSent?)
    ensures ElectedOk(Next(s, Run(a, act)), a, k)
  {
    hide SizedSend, InviteMsg, Emit, Show;
  }

  /** What the acceptor and the senders hold for `k`. */
  predicate SameElection(n: Node, n': Node, k: nat) {
    && (k in n'.tasks ==> k in n.tasks && n'.tasks[k].dst == n.tasks[k].dst && n'.tasks[k].data == n.tasks[k].data)
    && (n'.acceptor.TakingJob? || n'.acceptor.GettingSent? ==> n'.acceptor == n.acceptor)
  }

  lemma KeepsElection(self: Addr, n: Node, act: Act, k: nat)
    requires CanAct(n, act) && !act.DoTakeJob? && !act.DoGetSent?
    ensures SameElection(n, Do(self, n, act).0, k)
  {
    hide SizedSend, InviteMsg, Emit, Show;
  }

  lemma SameElected(s: State, s': State, a: Addr, k: nat)
    requires a in s.nodes && a in s'.nodes && ElectedOk(s, a, k) && s.net <= s'.net
    requires SameElection(s.nodes[a], s'.nodes[a], k)
    ensures ElectedOk(s', a, k)
  {
    assert s'.net[..|s.net|] == s.net;
  }

  lemma RunJustified(s: State, a: Addr, act: Act, p: Packet)
    requires Inv(s) && History(s) && Enabled(s, Run(a, act)) && p in Do(a, s.nodes[a], act).1
    ensures Justified(s.net, p) && |Do(a, s.nodes[a], act).1| <= 1
  {
    hide Inv, SizedSend, Show;
    match act
    case DoInvite(k) =>
    case DoTransmit(k) =>
      assert ElectedOk(s, a, k);
      CargoIsData(s, a, k);
    case _ =>
  }

  lemma CargoIsData(s: State, a: Addr, k: nat)
    requires Inv(s) && a in s.nodes && k in s.nodes[a].tasks
    ensures k in s.nodes[a].calls && s.nodes[a].tasks[k].data == Payload(k, s.nodes[a].calls[k])
    ensures s.nodes[a].tasks[k].dst in s.nodes[a].calls[k].servers
  {
    hide ServerOk, FinishOk, PcOk, DiscoveryOk, NotifiersOk, NoAck, IdOf, Show;
    assert NodeOk(s, a) && KeyOk(s.nodes[a], k);
  }

  lemma DeliverElected(s: State, p: Packet, k: nat)
    requires Inv(s) && Deliverable(s, p) && ElectedOk(s, p.dst, k)
    ensures ElectedOk(Update(s, p.dst, Arrive(s, p)), p.dst, k)
  {
    hide NodeOk, PacketOk, Receive, Garbled, IdOf;
    PacketSized(s, p);
    ReceivedKind(s.nodes[p.dst].block, p.msg);
    if p.msg.kind == Volunteer {
      VoteIsHonest(s, p);
      assert p == Packet(p.src, p.dst, Answer(Volunteer, p.msg));
    }
  }

  lemma DeliverJustified(s: State, p: Packet, q: Packet)
    requires Inv(s) && Deliverable(s, p) && q in Arrive(s, p).1
    ensures Justified(s.net, q)
  {
    hide NodeOk, PacketOk, Receive, Garbled;
    PacketSized(s, p);
    ReceivedKind(s.nodes[p.dst].block, p.msg);
    AnswerSized(s, p);
    if p.msg.kind == Invite {
      assert Packet(q.dst, q.src, Answer(Invite, q.msg)) == p;
    }
  }

  lemma StepKeepsHistory(s: State, x: Action)
    requires Inv(s) && History(s) && Enabled(s, x)
    ensures History(Next(s, x))
  {
    hide Inv, Justified, Ordered, ElectedOk, CanAct, Do, Accept;
    var s' := Next(s, x);
    var a := if x.Run? then x.a else s.net[x.i].dst;
    var out := if x.Run? then Do(a, s.nodes[a], x.act).1 else Arrive(s, s.net[x.i]).1;
    assert s'.net == s.net + out;
    forall p | p in out ensures Justified(s.net, p) {
      if x.Run? { RunJustified(s, a, x.act, p); } else { DeliverJustified(s, s.net[x.i], p); }
    }
    assert |out| <= 1 by { AtMostOne(s, x); }
    OrderedAppend(s.net, out);
    forall b, k | b in s'.nodes ensures ElectedOk(s', b, k) {
      assert ElectedOk(s, b, k);
      if b != a {
        ElectedElsewhere(s, s', b, k);
      } else if x.Run? {
        RunElected(s, a, x.act, k);
      } else {
        DeliverElected(s, s.net[x.i], k);
      }
    }
  }

  lemma AtMostOne(s: State, x: Action)
    requires Enabled(s, x)
    ensures |s.net| <= |Next(s, x).net| <= |s.net| + 1
  {
    hide SizedSend, Receive, InviteMsg, Sendable, Show, IdOf;
  }

  lemma ElectedElsewhere(s: State, s': State, b: Addr, k: nat)
    requires b in s.nodes && b in s'.nodes && s'.nodes[b] == s.nodes[b] && s.net <= s'.net
    requires ElectedOk(s, b, k)
    ensures ElectedOk(s', b, k)
  {
    assert s'.net[..|s.net|] == s.net;
  }

  // ---------------------------------------------------------------- unreliable data goes out once

  predicate OneShot(p: Packet) {
    p.msg.kind == Data && !p.msg.reliable
  }

  predicate Spent(s: State, p: Packet) {
    OneShot(p) ==> p.src in s.nodes && Halted(s.nodes[p.src], IdOf(p.msg.id))
  }

  predicate SameSend(p: Packet, q: Packet) {
    p.src == q.src && IdOf(p.msg.id) == IdOf(q.msg.id)
  }

  ghost predicate Once(s: State) {
    && (forall p | p in s.net :: Spent(s, p))
    && (forall i, j | 0 <= i < j < |s.net| && OneShot(s.net[i]) && OneShot(s.net[j]) :: !SameSend(s.net[i], s.net[j]))
  }

  lemma HaltedStays(self: Addr, n: Node, act: Act, k: nat)
    requires ClientOk(n) && CanAct(n, act) && Halted(n, k)
    ensures Halted(Do(self, n, act).0, k)
  {
    hide ClientOk, SizedSend, InviteMsg, Emit, DataMsg;
    if act.DoTakeJob? || act.DoGetSent? {
      SpawnIsFresh(n);
    }
  }

  /** The datagrams a step sends. */
  function Out(s: State, x: Action): seq<Packet>
    requires Enabled(s, x)
  {
    match x
    case Run(a, act) => Do(a, s.nodes[a], act).1
    case Deliver(i) => Arrive(s, s.net[i]).1
  }

  /** A one-shot datagram is only sent by a sender that has not sent yet, and ends it. */
  lemma OneShotSent(s: State, x: Action, p: Packet)
    requires Inv(s) && Enabled(s, x) && p in Out(s, x) && OneShot(p)
    ensures x.Run? && x.a == p.src && p.src in s.nodes && Running(s.nodes[p.src], IdOf(p.msg.id))
    ensures Spent(Next(s, x), p)
  {
    hide NodeOk, PacketOk, SizedSend, Receive, Show;
    match x
    case Run(a, act) =>
      if act.DoTransmit? {
        CargoIsData(s, a, act.k);
        CallIdFits(s, a, act.k);
        IdOfShow(act.k);
      }
    case Deliver(i) =>
  }

  lemma CallIdFits(s: State, a: Addr, k: nat)
    requires Inv(s) && a in s.nodes && k in s.nodes[a].calls
    ensures k <= U128_MAX
  {
    hide ServerOk, FinishOk, DiscoveryOk, NotifiersOk, NoAck, CargoOk, IdOf, Show, Sized, Fits, Sendable;
    assert NodeOk(s, a);
  }

  lemma SpentStays(s: State, x: Action, p: Packet)
    requires Inv(s) && Enabled(s, x) && Spent(s, p)
    ensures Spent(Next(s, x), p)
  {
    hide ClientOk, ServerOk, PacketOk, FinishOk, CanAct, Do, IdOf, Receive;
    if OneShot(p) {
      assert NodeOk(s, p.src);
      if x.Run? && x.a == p.src {
        HaltedStays(x.a, s.nodes[x.a], x.act, IdOf(p.msg.id));
      } else if x.Deliver? {
        AcceptFacts(s.net[x.i].dst, s.nodes[s.net[x.i].dst], s.net[x.i].src,
                    Receive(s.nodes[s.net[x.i].dst].block, s.net[x.i].msg), 0);
      }
    }
  }

  lemma StepKeepsOnce(s: State, x: Action)
    requires Inv(s) && Once(s) && Enabled(s, x)
    ensures Once(Next(s, x))
  {
    hide Inv, Enabled, Spent, Running, IdOf, Receive;
    var s', out := Next(s, x), Out(s, x);
    AtMostOne(s, x);
    assert s'.net == s.net + out;
    forall p | p in s'.net ensures Spent(s', p) {
      if p in s.net {
        SpentStays(s, x, p);
      } else if OneShot(p) {
        OneShotSent(s, x, p);
      } else {
        assert Spent(s', p) by { NotOneShot(s', p); }
      }
    }
    forall i, j | 0 <= i < j < |s'.net| && OneShot(s'.net[i]) && OneShot(s'.net[j])
      ensures !SameSend(s'.net[i], s'.net[j])
    {
      if j >= |s.net| {
        assert s'.net[j] in out && s'.net[i] == s.net[i];
        OneShotSent(s, x, s'.net[j]);
        StillRunning(s, s.net[i], s'.net[j]);
      }
    }
  }

  lemma NotOneShot(s: State, p: Packet)
    requires !OneShot(p)
    ensures Spent(s, p)
  {
  }

  lemma StillRunning(s: State, p: Packet, q: Packet)
    requires OneShot(p) && Spent(s, p)
    requires q.src in s.nodes && Running(s.nodes[q.src], IdOf(q.msg.id))
    ensures !SameSend(p, q)
  {
  }

  // ---------------------------------------------------------------- every reachable state

  lemma {:induction false} ExecKeepsHistory(s: State, xs: seq<Action>)
    requires Inv(s) && History(s) && Once(s) && Runs(s, xs)
    ensures History(Exec(s, xs)) && Once(Exec(s, xs))
    decreases |xs|
  {
    hide Inv, History, Once, Enabled, Next;
    if xs != [] {
      StepKeepsInv(s, xs[0]);
      StepKeepsHistory(s, xs[0]);
      StepKeepsOnce(s, xs[0]);
      ExecKeepsHistory(Next(s, xs[0]), xs[1..]);
    }
  }

  lemma InitHistory(s: State)
    requires Init(s)
    ensures History(s) && Once(s)
  {
  }

  lemma ReachableHistory(s: State)
    requires Reachable(s)
    ensures Inv(s) && History(s) && Once(s)
  {
    hide Inv, Init, History, Once, Runs, Exec;
    var s0: State, xs: seq<Action> :| Init(s0) && Runs(s0, xs) && Exec(s0, xs) == s;
    InitInv(s0);
    InitHistory(s0);
    ExecKeepsInv(s0, xs);
    ExecKeepsHistory(s0, xs);
  }
}
