/** What UMQT promises in every reachable state of every network of processes. */
module UmqtSafety {
  import opened Common
  import opened Decimal
  import opened Framing
  import opened Headers
  import opened UmqtWire
  import opened UmqtNode
  import opened UmqtClient
  import opened UmqtSystem
  import opened UmqtInvariant
  import opened UmqtHistory

  // ---------------------------------------------------------------- one winner

  /** Single winner: the data a process ever sends for one request goes to one address, byte for byte the
      same, carries what the call asked for, and the address was among the servers `send` read. */
  lemma SingleWinner(s: State, p: Packet, q: Packet)
    requires Reachable(s) && p in s.net && q in s.net
    requires p.msg.kind == Data && q.msg.kind == Data
    requires p.src == q.src && IdOf(p.msg.id) == IdOf(q.msg.id)
    ensures p == q
    ensures p.src in s.nodes && IdOf(p.msg.id) in s.nodes[p.src].calls
    ensures var c := s.nodes[p.src].calls[IdOf(p.msg.id)];
      p.dst in c.servers && p.msg == Msg(Data, Show(IdOf(p.msg.id)), c.reliable, c.topic, c.bytes)
  {
    hide NodeOk, Show, IdOf, Sized, Fits, Sendable;
    ReachableInv(s);
    assert PacketOk(s, p) && PacketOk(s, q);
    CargoIsData(s, p.src, IdOf(p.msg.id));
  }

  /** An unreliable send puts at most one data datagram on the network, ever. */
  lemma UnreliableAtMostOnce(s: State, i: nat, j: nat)
    requires Reachable(s) && i < |s.net| && j < |s.net|
    requires OneShot(s.net[i]) && OneShot(s.net[j]) && SameSend(s.net[i], s.net[j])
    ensures i == j
  {
    hide Inv, History, Spent, OneShot, SameSend;
    ReachableHistory(s);
    assert SameSend(s.net[j], s.net[i]) by { SameSendSym(s.net[i], s.net[j]); }
  }

  lemma SameSendSym(p: Packet, q: Packet)
    requires SameSend(p, q)
    ensures SameSend(q, p)
  {
  }

  /** The process a datagram belongs to: the sender of invites and data, the receiver of answers. */
  function ClientOf(p: Packet): Addr {
    if p.msg.kind == Invite || p.msg.kind == Data then p.src else p.dst
  }

  function PeerOf(p: Packet): Addr {
    if p.msg.kind == Invite || p.msg.kind == Data then p.dst else p.src
  }

  /** Every datagram carries the id, flag and topic of the send it belongs to, only data carries its bytes, and the
      process at its other end was registered for the topic. */
  lemma DatagramBelongs(s: State, p: Packet)
    requires Reachable(s) && p in s.net
    ensures ClientOf(p) in s.nodes && IdOf(p.msg.id) in s.nodes[ClientOf(p)].calls
    ensures var c := s.nodes[ClientOf(p)].calls[IdOf(p.msg.id)];
      p.msg.id == Show(IdOf(p.msg.id)) && p.msg.reliable == c.reliable && p.msg.topic == c.topic
      && PeerOf(p) in c.servers && p.msg.bytes == if p.msg.kind == Data then c.bytes else []
  {
    hide NodeOk, Show, IdOf, Sized, Fits, Sendable, Ordered;
    ReachableHistory(s);
    assert PacketOk(s, p);
    var k := IdOf(p.msg.id);
    match p.msg.kind
    case Invite =>
    case Volunteer => VoteIsHonest(s, p);
    case Data => CargoIsData(s, p.src, k);
    case Ack =>
      CargoIsData(s, p.dst, k);
      var j :| 0 <= j < |s.net| && s.net[j] == p;
      assert Justified(s.net[..j], p) by { OrderedAt(s, j); }
      var q :| q in s.net[..j] && q.src == p.dst && q.dst == p.src && q.msg.kind == Data && Answer(Ack, q.msg) == p.msg;
      assert PacketOk(s, q);
  }

  lemma OrderedAt(s: State, j: nat)
    requires History(s) && j < |s.net|
    ensures Justified(s.net[..j], s.net[j])
  {
    hide Justified;
  }

  // ---------------------------------------------------------------- causal chain

  /** Going back through the log from one acknowledgement. */
  lemma TraceBack(s: State, m: nat) returns (i: nat, j: nat, l: nat)
    requires History(s) && m < |s.net| && s.net[m].msg.kind == Ack
    ensures i < j < l < m
    ensures var p, q := s.net[m], s.net[l];
      && q.src == p.dst && q.dst == p.src && q.msg.kind == Data && Answer(Ack, q.msg) == p.msg
      && s.net[j] == Packet(q.dst, q.src, Answer(Volunteer, q.msg))
      && s.net[i] == Packet(q.src, q.dst, Answer(Invite, q.msg))
  {
    hide History;
    var p := s.net[m];
    OrderedAt(s, m);
    var q :| q in s.net[..m] && q.src == p.dst && q.dst == p.src && q.msg.kind == Data && Answer(Ack, q.msg) == p.msg;
    l :| 0 <= l < m && s.net[l] == q;
    OrderedAt(s, l);
    j :| 0 <= j < l && s.net[j] == Packet(q.dst, q.src, Answer(Volunteer, q.msg));
    OrderedAt(s, j);
    i :| 0 <= i < j && s.net[i] == Packet(q.src, q.dst, Answer(Invite, q.msg));
  }

  /** Causal chain: before every acknowledgement in the log stand, in this order, the invite of its client
      to its sender, the sender's vote, and the client's data to it, all of the same request; and the sender
      has received exactly that data. */
  lemma CausalChain(s: State, m: nat) returns (i: nat, j: nat, l: nat)
    requires Reachable(s) && m < |s.net| && s.net[m].msg.kind == Ack
    ensures i < j < l < m
    ensures var client, server, k := s.net[m].dst, s.net[m].src, IdOf(s.net[m].msg.id);
      && client in s.nodes && k in s.nodes[client].calls
      && (var c := s.nodes[client].calls[k];
          && s.net[i] == Packet(client, server, InviteMsg(k, c))
          && s.net[j] == Packet(server, client, Vote(k, c))
          && s.net[l] == Packet(client, server, Payload(k, c))
          && server in c.servers && c.reliable
          && ReceivedAt(s, server, client, Payload(k, c)))
  {
    hide Inv, History, Reachable, Show, IdOf;
    ReachableHistory(s);
    i, j, l := TraceBack(s, m);
    AckIsHonest(s, s.net[m]);
    DataIsCargo(s, s.net[l]);
    CargoIsData(s, s.net[m].dst, IdOf(s.net[m].msg.id));
  }

  lemma DataIsCargo(s: State, q: Packet)
    requires Inv(s) && q in s.net && q.msg.kind == Data
    ensures q.src in s.nodes && IdOf(q.msg.id) in s.nodes[q.src].tasks
    ensures var t := s.nodes[q.src].tasks[IdOf(q.msg.id)]; q.dst == t.dst && q.msg == t.data
  {
    hide NodeOk, IdOf, Sized, Fits, Sendable;
    assert PacketOk(s, q);
  }

  // ---------------------------------------------------------------- delivery

  predicate ReliableCall(s: State, a: Addr, k: nat) {
    a in s.nodes && k in s.nodes[a].calls && s.nodes[a].calls[k].reliable
  }

  /** Reliable delivery: when a reliable `send` has returned, exactly one of the servers it read was chosen,
      that server's acceptor has received the sent topic and bytes whole, so they fitted its buffer, and no
      data for the request ever went anywhere else. Receipt, not completion of the handler. */
  lemma ReliableDelivery(s: State, a: Addr, k: nat) returns (b: Addr)
    requires Reachable(s) && ReliableCall(s, a, k) && s.nodes[a].calls[k].pc == Returned
    ensures var c := s.nodes[a].calls[k]; var data := Msg(Data, Show(k), true, c.topic, c.bytes);
      && b in c.servers && ReceivedAt(s, b, a, data) && Fits(s.nodes[b].block, data)
      && Receive(s.nodes[b].block, data) == Some(data)
      && (forall p | p in s.net && p.src == a && p.msg.kind == Data && IdOf(p.msg.id) == k ::
            p == Packet(a, b, data))
  {
    hide Show, IdOf, Sized, Fits, Sendable, PacketOk, PcOk, DiscoveryOk, NoAck, ServerOk, Receive;
    ReachableInv(s);
    assert NodeOk(s, a);
    var n := s.nodes[a];
    assert CallOk(n, k, n.calls[k]) && FinishOk(s, a, k, n.calls[k]);
    b := n.tasks[k].dst;
    CargoIsData(s, a, k);
    ReceivedFits(s, b, a, n.tasks[k].data);
    ReceiveWhole(s.nodes[b].block, n.tasks[k].data);
    forall p | p in s.net && p.src == a && p.msg.kind == Data && IdOf(p.msg.id) == k
      ensures p == Packet(a, b, n.tasks[k].data)
    {
      DataIsCargo(s, p);
    }
  }

  /** The datagram behind a receipt. */
  lemma ReceiptOf(s: State, b: Addr, a: Addr, m: Msg) returns (p: Packet)
    requires Inv(s) && ReceivedAt(s, b, a, m)
    ensures p in s.net && ReadFrom(s.nodes[b].block, b, (a, m), p) && m.kind == Data
  {
    hide ClientOk, FinishOk, PacketOk, ReadFrom;
    assert NodeOk(s, b);
    assert ReceiptOk(s, b, (a, m));
    p :| p in s.net && ReadFrom(s.nodes[b].block, b, (a, m), p);
  }

  lemma ReceivedFits(s: State, b: Addr, a: Addr, m: Msg)
    requires Inv(s) && ReceivedAt(s, b, a, m) && !Garbled(m)
    ensures Fits(s.nodes[b].block, m) && Packet(a, b, m) in s.net && m.kind == Data
  {
    hide Inv, Receive, Fits, Sendable, Garbled;
    var p := ReceiptOf(s, b, a, m);
    PacketSized(s, p);
    ReceivedKind(s.nodes[b].block, p.msg);
    assert p == Packet(a, b, m);
  }

  lemma ReceivedIsCargo(s: State, b: Addr, a: Addr, m: Msg)
    requires Inv(s) && ReceivedAt(s, b, a, m) && !Garbled(m)
    ensures a in s.nodes && IdOf(m.id) in s.nodes[a].calls && IdOf(m.id) in s.nodes[a].tasks
    ensures s.nodes[a].tasks[IdOf(m.id)].dst == b && m == Payload(IdOf(m.id), s.nodes[a].calls[IdOf(m.id)])
  {
    hide Inv, IdOf, Fits, Sendable, Garbled, Show;
    ReceivedFits(s, b, a, m);
    DataIsCargo(s, Packet(a, b, m));
    CargoIsData(s, a, IdOf(m.id));
  }

  /** What a process made of a data datagram: the message itself, or the first bytes of its header, as many as
      its payload has, passed for an unreliable message without id and topic. */
  predicate MadeOf(block: nat, m: Msg, data: Msg) {
    || (m == data && Fits(block, data))
    || (Garbled(m) && m.bytes == UmqtText(HeaderOf(data))[..Min(|data.bytes|, |UmqtText(HeaderOf(data))|)]
        && !Fits(block, data) && |data.bytes| >= 10 && block <= |Encode(InviteOf(data))| + 18)
  }

  /** Data only goes to a process whose buffer took the invite. */
  lemma DataWasInvited(s: State, p: Packet)
    requires Inv(s) && History(s) && p in s.net && p.msg.kind == Data && p.dst in s.nodes
    ensures Fits(s.nodes[p.dst].block, InviteOf(p.msg))
  {
    hide Inv, Fits, Sendable, Show, IdOf, Justified;
    var j :| 0 <= j < |s.net| && s.net[j] == p;
    OrderedAt(s, j);
    VoteBefore(s.net[..j], p);
    InvitedVoter(s, Packet(p.dst, p.src, Answer(Volunteer, p.msg)));
  }

  lemma VoteBefore(earlier: seq<Packet>, p: Packet)
    requires Justified(earlier, p) && p.msg.kind == Data
    ensures Packet(p.dst, p.src, Answer(Volunteer, p.msg)) in earlier
  {
  }

  lemma InvitedVoter(s: State, p: Packet)
    requires Inv(s) && p in s.net && p.msg.kind == Volunteer
    ensures p.src in s.nodes && Fits(s.nodes[p.src].block, InviteOf(p.msg))
  {
    hide NodeOk, Fits, Sendable, IdOf;
    assert PacketOk(s, p);
    assert InviteOf(p.msg) == Answer(Invite, p.msg);
  }

  lemma ReceivedIsMadeOf(s: State, b: Addr, p: Packet, m: Msg)
    requires Inv(s) && History(s) && p in s.net && b in s.nodes && ReadFrom(s.nodes[b].block, b, (p.src, m), p)
    ensures MadeOf(s.nodes[b].block, m, p.msg)
  {
    hide Inv, History, Receive, UmqtText, Encode, Meta;
    var block := s.nodes[b].block;
    PacketSized(s, p);
    DataWasInvited(s, p);
    if Fits(block, p.msg) {
      ReceiveWhole(block, p.msg);
    } else {
      ReceiveCut(block, p.msg);
      MisreadWindow(block, p.msg);
    }
  }

  /** A handler only ever runs for its own topic, at the process elected for a call, on what its buffer made of
      exactly that call's data: the whole, or within a narrow window of sizes the start of its header. */
  lemma HandlerInput(s: State, b: Addr, from: Addr, m: Msg) returns (k: nat)
    requires Reachable(s) && b in s.nodes && (from, m) in s.nodes[b].handled
    ensures m.topic in s.nodes[b].consumers
    ensures from in s.nodes && k in s.nodes[from].calls && k in s.nodes[from].tasks
    ensures s.nodes[from].tasks[k].dst == b && MadeOf(s.nodes[b].block, m, Payload(k, s.nodes[from].calls[k]))
  {
    hide Inv, History, ReadFrom, MadeOf, IdOf, Show, Reachable;
    ReachableHistory(s);
    HandledIsReceived(s, b, from, m);
    var p := ReceiptOf(s, b, from, m);
    ReadFromIs(s.nodes[b].block, b, (from, m), p);
    k := IdOf(p.msg.id);
    DataIsCargo(s, p);
    CargoIsData(s, from, k);
    ReceivedIsMadeOf(s, b, p, m);
  }

  lemma ReadFromIs(block: nat, b: Addr, r: (Addr, Msg), p: Packet)
    requires ReadFrom(block, b, r, p)
    ensures p.src == r.0 && p.dst == b && p.msg.kind == Data
  {
  }

  lemma HandledIsReceived(s: State, b: Addr, from: Addr, m: Msg)
    requires Inv(s) && b in s.nodes && (from, m) in s.nodes[b].handled
    ensures ReceivedAt(s, b, from, m) && m.topic in s.nodes[b].consumers
  {
    hide ClientOk, FinishOk, PacketOk, ReceiptOk;
    assert NodeOk(s, b);
  }

  // ---------------------------------------------------------------- maps and wake-ups

  /** Map shape at lock granularity: in every reachable state the membership of a request in the four maps is
      a function of where its `send` stands, whether a server has won, and which notifiers have fired. */
  lemma MapShape(s: State, a: Addr, k: nat)
    requires Reachable(s) && a in s.nodes && k in s.nodes[a].calls
    ensures var n := s.nodes[a]; var at := Rank(n.calls[k].pc);
      && (k in n.jobs <==> at >= 1 && !HasJobOut(n, k))
      && (k in n.jobs ==> n.jobs[k] == n.calls[k].bytes)
      && (k in n.discovery <==> at >= 2 && !Won(n, k))
      && (k in n.sent <==> n.calls[k].reliable && at >= 3 && k !in n.sentPermits && !Halted(n, k))
      && (k in n.finish <==> n.calls[k].reliable && 4 <= at < 6 && k !in n.finishPermits)
      && (at < 4 ==> !Won(n, k)) && (at >= 5 ==> Won(n, k))
  {
    hide Reachable, Inv, PcOk, Show;
    ReachableInv(s);
    KeyOkAt(s, a, k);
  }

  /** The shape of the maps for a request that waits for a vote: its job and, if reliable, both of its
      notifiers are registered, so the first vote finds everything it needs. */
  lemma OpenRequestIsComplete(s: State, a: Addr, k: nat)
    requires Reachable(s) && a in s.nodes && k in s.nodes[a].discovery
    requires exists p :: p in s.net && p.src == a && p.msg.kind == Invite && IdOf(p.msg.id) == k
    ensures var n := s.nodes[a];
      k in n.jobs && k in n.calls && (n.calls[k].reliable ==> k in n.sent && k in n.finish)
  {
    hide Show, IdOf, Sized, Fits, Sendable, PcOk, ServerOk, CargoOk, PacketOk;
    ReachableInv(s);
    assert NodeOk(s, a);
    var p :| p in s.net && p.src == a && p.msg.kind == Invite && IdOf(p.msg.id) == k;
    InviteIsOpen(s, p);
    assert KeyOk(s.nodes[a], k);
  }

  lemma InviteIsOpen(s: State, p: Packet)
    requires Inv(s) && p in s.net && p.msg.kind == Invite
    ensures p.src in s.nodes && InviteOk(s, p)
  {
    hide NodeOk, IdOf, Sized, Fits, Sendable, InviteOk;
    assert PacketOk(s, p);
  }

  /** Hence the acceptor never takes an early return after a vote: the job is there, and so is the sent
      notifier of a reliable send. */
  lemma NoEarlyReturn(s: State, a: Addr)
    requires Reachable(s) && a in s.nodes
    ensures var n := s.nodes[a];
      && (n.acceptor.TakingJob? ==> n.acceptor.k in n.jobs)
      && (n.acceptor.GettingSent? ==> n.acceptor.k in n.sent)
      && (n.acceptor.DroppingSent? ==> n.acceptor.k in n.sent)
  {
    hide Show, IdOf, Sized, Fits, Sendable, PcOk, ServerOk, PacketOk, FinishOk;
    ReachableInv(s);
    var n := s.nodes[a];
    assert NodeOk(s, a);
    if n.acceptor.TakingJob? || n.acceptor.GettingSent? || n.acceptor.DroppingSent? {
      assert KeyOk(n, n.acceptor.k);
    }
  }

  /** No lost wake-up: once the first acknowledgement of a request is fully processed, the finish permit
      waits for `send` or `send` has returned, and the sent permit waits for the retransmitter or it has
      stopped, however the two tasks and the acceptor interleave. */
  lemma NoLostWakeup(s: State, a: Addr, k: nat)
    requires Reachable(s) && ReliableCall(s, a, k) && Rank(s.nodes[a].calls[k].pc) >= 4
    requires k !in s.nodes[a].finish && !Dropping(s.nodes[a], k)
    ensures var n := s.nodes[a];
      && (k in n.finishPermits || n.calls[k].pc == Returned)
      && (k in n.sentPermits || Halted(n, k))
      && (k in n.discoveryPermits || Rank(n.calls[k].pc) >= 5)
  {
    hide Reachable, Inv, PcOk, Show;
    ReachableInv(s);
    KeyOkAt(s, a, k);
  }

  /** Resource conservation: a returned call is in none of the four maps, except while the acceptor is in
      the middle of its vote or acknowledgement. */
  lemma ReturnedLeavesNothing(s: State, a: Addr, k: nat)
    requires Reachable(s) && a in s.nodes && In(s.nodes[a], k, Returned)
    ensures var n := s.nodes[a];
      && k !in n.discovery && k !in n.finish && k !in n.discoveryPermits && k !in n.finishPermits
      && (k in n.jobs ==> n.acceptor.TakingJob? && n.acceptor.k == k)
      && (k in n.sent ==> Dropping(n, k))
  {
    hide Reachable, Inv, PcOk, Show;
    ReachableInv(s);
    KeyOkAt(s, a, k);
  }

  /** Every key of the four maps is a call that has not returned or the request the acceptor is handling. */
  lemma KeysAreLive(s: State, a: Addr, k: nat)
    requires Reachable(s) && a in s.nodes
    requires var n := s.nodes[a]; k in n.jobs || k in n.discovery || k in n.sent || k in n.finish
    ensures var n := s.nodes[a];
      k in n.calls && (n.calls[k].pc != Returned || Busy(n, k) || Dropping(n, k))
  {
    hide Reachable, Inv, PcOk, Show;
    ReachableInv(s);
    KeyOkAt(s, a, k);
    if In(s.nodes[a], k, Returned) {
      ReturnedLeavesNothing(s, a, k);
    }
  }
}
