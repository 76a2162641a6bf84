/** Every step of the UMQT network keeps the invariant, so it holds in every reachable state. */
module UmqtInvariant {
  import opened Common
  import opened Decimal
  import opened Headers
  import opened UmqtWire
  import opened UmqtNode
  import opened UmqtClient
  import opened UmqtSystem

  lemma KeyOkAt(s: State, a: Addr, k: nat)
    requires Inv(s) && a in s.nodes
    ensures KeyOk(s.nodes[a], k)
  {
    hide CallOk, Tracked, ServerOk, FinishOk;
    assert NodeOk(s, a);
  }

  lemma AckedByGrows(s: State, s': State, a: Addr, k: nat, b: Addr)
    requires Grows(s, s') && AckedBy(s, a, k, b)
    ensures AckedBy(s', a, k, b)
  {
  }

  lemma ReceiptBy(s: State, b: Addr, r: (Addr, Msg), p: Packet)
    requires b in s.nodes && p in s.net && ReadFrom(s.nodes[b].block, b, r, p)
    ensures ReceiptOk(s, b, r)
  {
  }

  lemma ReceiptStays(s: State, s': State, b: Addr, r: (Addr, Msg))
    requires b in s.nodes && ReceiptOk(s, b, r) && s.net <= s'.net
    requires b in s'.nodes && s'.nodes[b].block == s.nodes[b].block
    ensures ReceiptOk(s', b, r)
  {
    hide ReadFrom;
    var p :| p in s.net && ReadFrom(s.nodes[b].block, b, r, p);
    assert s'.net[..|s.net|] == s.net;
  }

  /** The parts of the invariant that only look at what grows survive any step at node `a`. */
  lemma UpdateKeepsOthers(s: State, a: Addr, r: (Node, seq<Packet>), b: Addr)
    requires Inv(s) && a in s.nodes && NodeGrows(s.nodes[a], r.0)
    requires b in s.nodes && b != a
    ensures NodeOk(Update(s, a, r), b)
  {
    hide ClientOk, PacketOk, AckedBy, ReceiptOk;
    var s' := Update(s, a, r);
    UpdateGrows(s, a, r);
    assert NodeOk(s, b) && s'.nodes[b] == s.nodes[b];
    forall r' | r' in s.nodes[b].received ensures ReceiptOk(s', b, r') {
      ReceiptStays(s, s', b, r');
    }
    forall k | k in s'.nodes[b].calls ensures FinishOk(s', b, k, s'.nodes[b].calls[k]) {
      assert FinishOk(s, b, k, s.nodes[b].calls[k]);
      if k in s.nodes[b].tasks && AckedBy(s, b, k, s.nodes[b].tasks[k].dst) {
        AckedByGrows(s, s', b, k, s.nodes[b].tasks[k].dst);
      }
    }
  }

  /** A step of one node that respects its own part keeps the whole invariant. */
  lemma UpdateKeepsInv(s: State, a: Addr, r: (Node, seq<Packet>))
    requires Inv(s) && a in s.nodes && NodeGrows(s.nodes[a], r.0)
    requires NodeOk(Update(s, a, r), a)
    requires forall p | p in r.1 :: PacketOk(Update(s, a, r), p)
    ensures Inv(Update(s, a, r)) && Grows(s, Update(s, a, r))
  {
    hide NodeOk, PacketOk, NodeGrows;
    var s' := Update(s, a, r);
    UpdateGrows(s, a, r);
    forall b | b in s'.nodes ensures NodeOk(s', b) {
      if b != a {
        UpdateKeepsOthers(s, a, r, b);
      }
    }
    forall p | p in s'.net ensures PacketOk(s', p) {
      if p in s.net {
        PacketOkGrows(s, s', p);
      }
    }
  }

  // ---------------------------------------------------------------- steps of local tasks

  /** No local step takes a finish notifier out of the map, and calls reach the loop with theirs in it. */
  lemma DoFinishFacts(self: Addr, n: Node, act: Act, k: nat)
    requires CanAct(n, act) && k in Do(self, n, act).0.calls
    ensures var n' := Do(self, n, act).0;
      n'.calls[k].reliable && Rank(n'.calls[k].pc) >= 4 && k !in n'.finish ==>
        k in n.calls && n.calls[k].reliable && Rank(n.calls[k].pc) >= 4 && k !in n.finish
  {
    hide Sized, Fits, Sendable, SizedSend, InviteMsg, Emit, Show;
  }

  lemma DoKeepsFinish(s: State, a: Addr, act: Act, k: nat)
    requires Inv(s) && Enabled(s, Run(a, act)) && Grows(s, Next(s, Run(a, act)))
    requires k in Next(s, Run(a, act)).nodes[a].calls
    ensures FinishOk(Next(s, Run(a, act)), a, k, Next(s, Run(a, act)).nodes[a].calls[k])
  {
    hide ClientOk, ServerOk, PacketOk, AckedBy, CanAct, Do;
    var n, s' := s.nodes[a], Next(s, Run(a, act));
    assert NodeOk(s, a);
    DoFinishFacts(a, n, act, k);
    if k in n.calls {
      assert FinishOk(s, a, k, n.calls[k]);
      if k in n.tasks && AckedBy(s, a, k, n.tasks[k].dst) {
        AckedByGrows(s, s', a, k, n.tasks[k].dst);
        assert TaskGrows(n, s'.nodes[a], k);
      }
    }
  }

  /** Only `Dispatch` touches the logs of a server, and only for a registered topic. */
  lemma DoServerFacts(self: Addr, n: Node, act: Act)
    requires CanAct(n, act)
    ensures var n' := Do(self, n, act).0;
      && n'.received == n.received && n.consumers <= n'.consumers && n'.block == n.block
      && (n'.acceptor.Dispatching? ==> n'.acceptor == n.acceptor)
      && (n'.handled == n.handled ||
          (n.acceptor.Dispatching? && n.acceptor.data.topic in n.consumers &&
           n'.handled == n.handled + [(n.acceptor.from, n.acceptor.data)]))
  {
    hide Sized, Fits, Sendable, SizedSend, InviteMsg, Emit, Show;
  }

  lemma DoKeepsServer(s: State, a: Addr, act: Act)
    requires Inv(s) && Enabled(s, Run(a, act))
    ensures ServerOk(Next(s, Run(a, act)), a)
  {
    hide ClientOk, PacketOk, AckedBy, ReceiptOk, CanAct, Do;
    assert NodeOk(s, a);
    DoServerFacts(a, s.nodes[a], act);
    forall r | r in s.nodes[a].received ensures ReceiptOk(Next(s, Run(a, act)), a, r) {
      ReceiptStays(s, Next(s, Run(a, act)), a, r);
    }
  }

  lemma SendInviteOk(s: State, a: Addr, k: nat)
    requires Inv(s) && a in s.nodes && CanInvite(s.nodes[a], k)
    ensures var r := SendInvite(a, s.nodes[a], k); forall p | p in r.1 :: PacketOk(Update(s, a, r), p)
  {
    hide Sized, Fits, Sendable, Show, IdOf, ServerOk, DiscoveryOk, NotifiersOk, NoAck, Tracked, CargoOk;
    assert NodeOk(s, a) && KeyOk(s.nodes[a], k);
    IdOfShow(k);
  }

  lemma TransmitOk(s: State, a: Addr, k: nat)
    requires Inv(s) && a in s.nodes && Running(s.nodes[a], k)
    ensures var r := Transmit(a, s.nodes[a], k); forall p | p in r.1 :: PacketOk(Update(s, a, r), p)
  {
    hide Sized, Fits, Sendable, Show, IdOf, ServerOk, DiscoveryOk, NotifiersOk, NoAck;
    assert NodeOk(s, a) && KeyOk(s.nodes[a], k);
    IdOfShow(k);
  }

  /** A datagram sent by a local task is an invite of an open call or the cargo of a sender. */
  lemma SentIsOk(s: State, a: Addr, act: Act, p: Packet)
    requires Inv(s) && Enabled(s, Run(a, act))
    requires p in Do(a, s.nodes[a], act).1
    ensures PacketOk(Next(s, Run(a, act)), p)
  {
    hide Inv, PacketOk, InviteMsg, Emit, Show;
    match act
    case DoInvite(k) => SendInviteOk(s, a, k);
    case DoTransmit(k) => TransmitOk(s, a, k);
    case _ =>
  }

  lemma RunKeepsInv(s: State, a: Addr, act: Act)
    requires Inv(s) && Enabled(s, Run(a, act))
    ensures Inv(Next(s, Run(a, act))) && Grows(s, Next(s, Run(a, act)))
  {
    hide ClientOk, ServerOk, PacketOk, FinishOk, NodeGrows, CanAct, Do;
    assert NodeOk(s, a);
    DoGrows(a, s.nodes[a], act);
    var r := Do(a, s.nodes[a], act);
    UpdateGrows(s, a, r);
    DoKeepsClientOk(a, s.nodes[a], act);
    DoKeepsServer(s, a, act);
    forall k | k in r.0.calls ensures FinishOk(Update(s, a, r), a, k, r.0.calls[k]) {
      DoKeepsFinish(s, a, act, k);
    }
    forall p | p in r.1 ensures PacketOk(Update(s, a, r), p) {
      SentIsOk(s, a, act, p);
    }
    UpdateKeepsInv(s, a, r);
  }

  // ---------------------------------------------------------------- deliveries

  predicate Deliverable(s: State, p: Packet) {
    p in s.net && p.dst in s.nodes && s.nodes[p.dst].acceptor.Ready?
  }

  /** An honest vote for an open request comes from an invited server and echoes the invite. */
  lemma VoteIsHonest(s: State, p: Packet)
    requires Inv(s) && p in s.net && p.msg.kind == Volunteer
    ensures p.dst in s.nodes && IdOf(p.msg.id) in s.nodes[p.dst].calls
    ensures var k := IdOf(p.msg.id); var c := s.nodes[p.dst].calls[k];
      Rank(c.pc) >= 4 && p.src in c.servers && p.msg == Vote(k, c)
  {
    hide Sized, Fits, Sendable, Show, IdOf, NodeOk;
    assert PacketOk(s, p);
    var invite := Packet(p.dst, p.src, Answer(Invite, p.msg));
    assert PacketOk(s, invite);
  }

  lemma ArriveKeepsClient(s: State, p: Packet)
    requires Inv(s) && Deliverable(s, p)
    ensures ClientOk(Arrive(s, p).0)
  {
    hide ClientOk, ServerOk, PacketOk, Receive, Garbled, Accept, FinishOk;
    var n := s.nodes[p.dst];
    var arrived := Receive(n.block, p.msg);
    assert NodeOk(s, p.dst);
    PacketSized(s, p);
    ReceivedKind(n.block, p.msg);
    if arrived.Some? && arrived.value == p.msg {
      if p.msg.kind == Volunteer {
        VoteIsHonest(s, p);
      } else if p.msg.kind == Ack {
        AckIsHonest(s, p);
      }
    }
    AcceptKeepsClientOk(p.dst, n, p.src, arrived);
  }

  lemma PacketSized(s: State, p: Packet)
    requires Inv(s) && p in s.net
    ensures Sized(p.msg) && Sendable(p.msg) && p.src in s.nodes
  {
    assert PacketOk(s, p);
  }

  /** Whatever the cut does, a message that arrives as a control message is the one that was sent. */
  lemma ReceivedKind(block: nat, m: Msg)
    requires Sized(m) && Sendable(m)
    ensures var r := Receive(block, m);
      r.Some? && (r.value.kind != Data || r.value.reliable) ==> r.value == m && Fits(block, m)
    ensures var r := Receive(block, m);
      r.Some? ==> (r.value == m && Fits(block, m)) || Garbled(r.value)
  {
    hide Receive, Fits, Sendable;
    ReceiveCases(block, m);
  }

  lemma AckIsHonest(s: State, p: Packet)
    requires Inv(s) && p in s.net && p.msg.kind == Ack
    ensures AckedBy(s, p.dst, IdOf(p.msg.id), p.src)
    ensures p.msg == Answer(Ack, s.nodes[p.dst].tasks[IdOf(p.msg.id)].data)
  {
    hide NodeOk;
    assert PacketOk(s, p);
  }

  lemma AckedByDst(s: State, a: Addr, k: nat, b: Addr)
    requires AckedBy(s, a, k, b)
    ensures a in s.nodes && k in s.nodes[a].tasks && s.nodes[a].tasks[k].dst == b
  {
  }

  /** Only data reaches the logs of a server, and its handler is next. */
  lemma AcceptServerFacts(self: Addr, n: Node, from: Addr, arrived: Option<Msg>)
    requires n.acceptor.Ready?
    ensures var n' := Accept(self, n, from, arrived).0;
      && n'.block == n.block && n'.consumers == n.consumers && n'.handled == n.handled
      && (if arrived.Some? && arrived.value.kind == Data
          then n'.received == n.received + {(from, arrived.value)} && n'.acceptor == Dispatching(from, arrived.value)
          else n'.received == n.received && !n'.acceptor.Dispatching?)
  {
    hide IdOf;
  }

  lemma ArriveKeepsServer(s: State, p: Packet)
    requires Inv(s) && Deliverable(s, p)
    ensures ServerOk(Update(s, p.dst, Arrive(s, p)), p.dst)
  {
    hide ClientOk, PacketOk, FinishOk, Receive, Garbled, Fits, Sendable, Accept, ReceiptOk;
    var s' := Update(s, p.dst, Arrive(s, p));
    AcceptServerFacts(p.dst, s.nodes[p.dst], p.src, Receive(s.nodes[p.dst].block, p.msg));
    assert NodeOk(s, p.dst);
    forall r | r in s.nodes[p.dst].received ensures ReceiptOk(s', p.dst, r) {
      ReceiptStays(s, s', p.dst, r);
    }
    var m := Receive(s.nodes[p.dst].block, p.msg);
    if m.Some? && m.value.kind == Data {
      ReceivedAsData(s, p, s.nodes[p.dst].block);
      ReceiptBy(s', p.dst, (p.src, m.value), p);
    }
  }

  /** What arrives as data was sent as data: control frames carry no bytes that could be misread. */
  lemma ReceivedAsData(s: State, p: Packet, block: nat)
    requires Inv(s) && p in s.net && Receive(block, p.msg).Some? && Receive(block, p.msg).value.kind == Data
    ensures p.msg.kind == Data
  {
    hide NodeOk, Sized, Fits, Sendable, Receive, IdOf, Show;
    assert PacketOk(s, p);
    if p.msg.kind != Data {
      BareReceived(block, p.msg);
    }
  }

  lemma BareReceived(block: nat, m: Msg)
    requires Sized(m) && Sendable(m) && m.bytes == []
    ensures Receive(block, m).Some? ==> Receive(block, m).value == m
  {
    hide Receive, Encode;
    if Fits(block, m) {
      ReceiveWhole(block, m);
    } else {
      ControlCutIsDropped(block, m);
    }
  }

  /** The acceptor's first section touches no call and no task, and a finish notifier only for an ack. */
  lemma AcceptFacts(self: Addr, n: Node, from: Addr, arrived: Option<Msg>, k: nat)
    ensures var n' := Accept(self, n, from, arrived).0;
      && n'.calls == n.calls && n'.tasks == n.tasks && n'.servers == n.servers && n'.consumers == n.consumers
      && (k !in n'.finish && k in n.finish ==>
            arrived.Some? && arrived.value.kind == Ack && IdOf(arrived.value.id) == k)
  {
    hide IdOf;
  }

  lemma ArriveKeepsFinish(s: State, p: Packet, k: nat)
    requires Inv(s) && Deliverable(s, p) && Grows(s, Update(s, p.dst, Arrive(s, p)))
    requires k in Arrive(s, p).0.calls
    ensures FinishOk(Update(s, p.dst, Arrive(s, p)), p.dst, k, Arrive(s, p).0.calls[k])
  {
    hide ClientOk, PacketOk, ServerOk, Receive, AckedBy, Accept;
    var s' := Update(s, p.dst, Arrive(s, p));
    var n := s.nodes[p.dst];
    assert NodeOk(s, p.dst);
    AcceptFacts(p.dst, n, p.src, Receive(n.block, p.msg), k);
    PacketSized(s, p);
    ReceivedKind(n.block, p.msg);
    assert k in n.calls && FinishOk(s, p.dst, k, n.calls[k]);
    if p.msg.kind == Ack && IdOf(p.msg.id) == k {
      AckIsHonest(s, p);
      AckedByDst(s, p.dst, k, p.src);
      assert k in n.finish && k !in s'.nodes[p.dst].finish ==> Fits(n.block, p.msg);
    }
    if k in n.tasks && AckedBy(s, p.dst, k, n.tasks[k].dst) {
      AckedByGrows(s, s', p.dst, k, n.tasks[k].dst);
    }
  }

  /** The answer of the acceptor is honest: a vote echoes a received invite, an ack names received data. */
  lemma AnswerIsOk(s: State, p: Packet, q: Packet)
    requires Inv(s) && Deliverable(s, p) && q in Arrive(s, p).1
    ensures PacketOk(Update(s, p.dst, Arrive(s, p)), q)
  {
    hide ClientOk, ServerOk, FinishOk, Receive, Sized, Fits, Sendable, IdOf, Garbled;
    assert NodeOk(s, p.dst) && PacketOk(s, p);
    ReceivedKind(s.nodes[p.dst].block, p.msg);
    AnswerSized(s, p);
    if p.msg.kind == Data {
      assert AckedBy(Update(s, p.dst, Arrive(s, p)), p.src, IdOf(p.msg.id), p.dst);
    }
  }

  lemma AnswerSized(s: State, p: Packet)
    requires Inv(s) && p in s.net
    ensures p.msg.kind == Invite ==>
      Sized(Answer(Volunteer, p.msg)) && Answer(Invite, Answer(Volunteer, p.msg)) == p.msg
    ensures p.msg.kind == Data ==> Sized(Answer(Ack, p.msg))
  {
    hide Sized, Fits, Sendable, IdOf, Show, ServerOk, FinishOk, DiscoveryOk, NotifiersOk, NoAck;
    assert PacketOk(s, p);
    var k := IdOf(p.msg.id);
    if p.msg.kind == Invite || p.msg.kind == Data {
      assert NodeOk(s, p.src);
      assert KeyOk(s.nodes[p.src], k);
    }
  }

  lemma DeliverKeepsInv(s: State, i: nat)
    requires Inv(s) && Enabled(s, Deliver(i))
    ensures Inv(Next(s, Deliver(i))) && Grows(s, Next(s, Deliver(i)))
  {
    hide ClientOk, ServerOk, PacketOk, FinishOk, NodeGrows, Accept;
    var p := s.net[i];
    var r := Arrive(s, p);
    AcceptGrows(p.dst, s.nodes[p.dst], p.src, Receive(s.nodes[p.dst].block, p.msg));
    UpdateGrows(s, p.dst, r);
    ArriveKeepsClient(s, p);
    ArriveKeepsServer(s, p);
    forall k | k in r.0.calls ensures FinishOk(Update(s, p.dst, r), p.dst, k, r.0.calls[k]) {
      ArriveKeepsFinish(s, p, k);
    }
    forall q | q in r.1 ensures PacketOk(Update(s, p.dst, r), q) {
      AnswerIsOk(s, p, q);
    }
    UpdateKeepsInv(s, p.dst, r);
  }

  // ---------------------------------------------------------------- all runs

  lemma StepKeepsInv(s: State, x: Action)
    requires Inv(s) && Enabled(s, x)
    ensures Inv(Next(s, x)) && Grows(s, Next(s, x))
  {
    hide Inv, Grows;
    match x
    case Run(a, act) => RunKeepsInv(s, a, act);
    case Deliver(i) => DeliverKeepsInv(s, i);
  }

  lemma GrowsTrans(s: State, t: State, u: State)
    requires Grows(s, t) && Grows(t, u)
    ensures Grows(s, u)
  {
    forall a | a in s.nodes ensures NodeGrows(s.nodes[a], u.nodes[a]) {
      NodeGrowsTrans(s.nodes[a], t.nodes[a], u.nodes[a]);
    }
    assert t.net[..|s.net|] == s.net && u.net[..|t.net|] == t.net;
    assert u.net[..|s.net|] == t.net[..|s.net|];
  }

  lemma NodeGrowsTrans(n: Node, m: Node, o: Node)
    requires NodeGrows(n, m) && NodeGrows(m, o)
    ensures NodeGrows(n, o)
  {
  }

  /** The invariant holds after every run, and history only grows along it. */
  lemma {:induction false} ExecKeepsInv(s: State, xs: seq<Action>)
    requires Inv(s) && Runs(s, xs)
    ensures Inv(Exec(s, xs)) && Grows(s, Exec(s, xs))
    decreases |xs|
  {
    hide Inv, Enabled, Next;
    if xs == [] {
      assert s.net <= s.net;
    } else {
      StepKeepsInv(s, xs[0]);
      ExecKeepsInv(Next(s, xs[0]), xs[1..]);
      GrowsTrans(s, Next(s, xs[0]), Exec(s, xs));
    }
  }

  lemma ReachableInv(s: State)
    requires Reachable(s)
    ensures Inv(s)
  {
    hide Inv, Init, Runs, Exec;
    var s0: State, xs: seq<Action> :| Init(s0) && Runs(s0, xs) && Exec(s0, xs) == s;
    InitInv(s0);
    ExecKeepsInv(s0, xs);
  }
}
