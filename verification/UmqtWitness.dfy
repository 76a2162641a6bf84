/** Runs from freshly started processes: one that completes, one that strands its caller, one that hands a
    handler the start of a header. */
module UmqtWitness {
  import opened Common
  import opened Decimal
  import opened Framing
  import opened Headers
  import opened HeaderSizes
  import opened UmqtWire
  import opened UmqtNode
  import opened UmqtClient
  import opened UmqtSystem
  import opened UmqtInvariant
  import opened UmqtHistory
  import opened UmqtSafety
  import opened UmqtHandling
  import opened UmqtOrigins
  import opened UmqtSchedules
  import opened UmqtLiveness

  /** `a` registers `b` for the topic and opens a reliable send to it. */
  function AddAndSend(a: Addr, b: Addr, k: nat, topic: string, bytes: Bytes): seq<Action> {
    [Run(a, DoAddServer(topic, b)), Run(a, DoBegin(k, topic, bytes, true))]
  }

  /** The server's buffer takes the invite, and the client's its vote. */
  predicate Electing(s: State, a: Addr, b: Addr, k: nat, topic: string, bytes: Bytes) {
    && a in s.nodes && b in s.nodes && k <= U128_MAX && SizedSend(k, topic, bytes, true)
    && Fits(s.nodes[b].block, Msg(Invite, Show(k), true, topic, []))
    && Fits(s.nodes[a].block, Msg(Volunteer, Show(k), true, topic, []))
  }

  lemma Open(s: State, a: Addr, b: Addr, k: nat, topic: string, bytes: Bytes) returns (t: State)
    requires Inv(s) && Electing(s, a, b, k, topic, bytes)
    requires topic !in s.nodes[a].servers && k !in s.nodes[a].calls
    ensures Leads(s, AddAndSend(a, b, k, topic, bytes), t) && Inv(t) && a in t.nodes && b in t.nodes
    ensures k in t.nodes[a].calls && t.nodes[a].calls[k] == Call(topic, bytes, true, [b], AtJobs)
    ensures t.nodes[a].block == s.nodes[a].block && t.nodes[b].block == s.nodes[b].block
    ensures Candidate(t, a, k, b)
  {
    hide Inv, Fits, Sendable, Sized, Show, Leads, NodeOk, Candidate, Grows;
    var add, begin := Run(a, DoAddServer(topic, b)), Run(a, DoBegin(k, topic, bytes, true));
    var u := Next(s, add);
    assert Enabled(u, begin);
    t := Next(u, begin);
    StepKeepsInv(s, add);
    StepKeepsInv(u, begin);
    OpenedIsCandidate(s, t, a, b, k, topic, bytes);
    assert Leads(s, AddAndSend(a, b, k, topic, bytes), t) by {
      hide Enabled, Next;
      LeadsOne(s, add);
      LeadsOne(u, begin);
      LeadsThen(s, [add], u, [begin], t);
      assert [add] + [begin] == AddAndSend(a, b, k, topic, bytes);
    }
  }

  lemma OpenedIsCandidate(s: State, t: State, a: Addr, b: Addr, k: nat, topic: string, bytes: Bytes)
    requires Inv(s) && Electing(s, a, b, k, topic, bytes) && k !in s.nodes[a].calls
    requires a in t.nodes && b in t.nodes && t.nodes[b].block == s.nodes[b].block
    requires var n, n' := s.nodes[a], t.nodes[a];
      n'.block == n.block && n'.tasks == n.tasks && n'.acceptor == n.acceptor && k in n'.calls &&
      n'.calls[k] == Call(topic, bytes, true, [b], AtJobs)
    ensures Candidate(t, a, k, b)
  {
    hide Inv, Fits, Sendable, Sized, Show;
    NewCallIsOpen(s, a, k);
  }

  lemma NewCallIsOpen(s: State, a: Addr, k: nat)
    requires Inv(s) && a in s.nodes && k !in s.nodes[a].calls
    ensures Chosen(s.nodes[a], k).None?
  {
    hide Inv;
    KeyOkAt(s, a, k);
  }

  // ---------------------------------------------------------------- a send that completes

  /** From scratch: a process adds a server and sends any bytes that are small enough for both buffers; then
      processes and network can complete the send by themselves. */
  lemma FreshSendCompletes(s0: State, a: Addr, b: Addr, k: nat, topic: string, bytes: Bytes) returns (xs: seq<Action>)
    requires Init(s0) && a in s0.nodes && b in s0.nodes && k <= U128_MAX
    requires Small(s0.nodes[a].block, k, topic, bytes) && Small(s0.nodes[b].block, k, topic, bytes)
    ensures Runs(s0, AddAndSend(a, b, k, topic, bytes) + xs)
    ensures ReturnedAt(Exec(s0, AddAndSend(a, b, k, topic, bytes) + xs), a, k)
    ensures forall x | x in xs :: Internal(x)
  {
    hide Fits, Sendable, Sized, Show, Inv, Leads, Chosen, Small, SizedSend;
    SmallExchange(s0.nodes[a].block, k, topic, bytes);
    SmallExchange(s0.nodes[b].block, k, topic, bytes);
    InitInv(s0);
    var t := Open(s0, a, b, k, topic, bytes);
    var u;
    xs, u := Complete(t, a, k, b);
    LeadsThen(s0, AddAndSend(a, b, k, topic, bytes), t, xs, u) by {
      assert Leads(t, xs, u) by { IsLeads(t, xs, u); }
    }
    LeadsIs(s0, AddAndSend(a, b, k, topic, bytes) + xs, u);
  }

  lemma IsLeads(s: State, xs: seq<Action>, t: State)
    requires Runs(s, xs) && Exec(s, xs) == t
    ensures Leads(s, xs, t)
  {
  }

  predicate Small(block: nat, k: nat, topic: string, bytes: Bytes) {
    24 * (|Show(k)| + 1 + |topic|) + 242 + |bytes| <= Min(block, UDP_MAX)
  }

  lemma SmallExchange(block: nat, k: nat, topic: string, bytes: Bytes)
    requires Small(block, k, topic, bytes)
    ensures SizedSend(k, topic, bytes, true)
    ensures Fits(block, Msg(Invite, Show(k), true, topic, [])) && Fits(block, Msg(Volunteer, Show(k), true, topic, []))
    ensures Fits(block, Msg(Data, Show(k), true, topic, bytes)) && Fits(block, Msg(Ack, Show(k), true, topic, []))
  {
    hide Sized, Encode, Show;
    SmallFits(block, Msg(Invite, Show(k), true, topic, []));
    SmallFits(block, Msg(Volunteer, Show(k), true, topic, []));
    SmallFits(block, Msg(Data, Show(k), true, topic, bytes));
    SmallFits(block, Msg(Ack, Show(k), true, topic, []));
  }

  // ---------------------------------------------------------------- a send that is stranded

  /** A server whose buffer takes the invite but not the data can win, and then the send never returns. */
  lemma FreshSendStrands(s0: State, a: Addr, b: Addr, k: nat, topic: string, bytes: Bytes) returns (xs: seq<Action>)
    requires Init(s0) && Electing(s0, a, b, k, topic, bytes)
    requires !Fits(s0.nodes[b].block, Msg(Data, Show(k), true, topic, bytes))
    ensures Runs(s0, AddAndSend(a, b, k, topic, bytes) + xs)
    ensures !CanReturn(Exec(s0, AddAndSend(a, b, k, topic, bytes) + xs), a, k)
    ensures forall x | x in xs :: Internal(x)
  {
    hide Fits, Sendable, Sized, Show, Inv, Leads, Chosen, SizedSend, CanReturn, Electable;
    InitInv(s0);
    var t := Open(s0, a, b, k, topic, bytes);
    var u;
    xs, u := ReachElected(t, a, k, b);
    LeadsThen(s0, AddAndSend(a, b, k, topic, bytes), t, xs, u);
    LeadsIs(s0, AddAndSend(a, b, k, topic, bytes) + xs, u);
    GrowsAt(t, u, a, k);
    assert Reachable(u);
    OverflowNeverReturns(u, a, k, b);
  }

  /** Two processes with buffers of 64 and 1 kilobytes. */
  const TWO: State := State(map[0 := NewNode(65536), 1 := NewNode(1024)], [])

  function Zeros(n: nat): (r: Bytes)
    ensures |r| == n
  {
    seq(n, i => 0)
  }

  /** Two thousand bytes to the small process strand the sender. */
  lemma TwoThousandBytesStrand() returns (xs: seq<Action>)
    ensures Init(TWO) && Runs(TWO, AddAndSend(0, 1, 1, "t", Zeros(2000)) + xs)
    ensures !CanReturn(Exec(TWO, AddAndSend(0, 1, 1, "t", Zeros(2000)) + xs), 0, 1)
  {
    hide CanReturn, Runs, Exec, Sized, Encode, Show;
    ShowOne();
    assert Small(65536, 1, "t", Zeros(2000)) && Small(1024, 1, "t", []);
    SmallExchange(65536, 1, "t", Zeros(2000));
    SmallExchange(1024, 1, "t", []);
    EncodeSize(Msg(Data, Show(1), true, "t", Zeros(2000)));
    xs := FreshSendStrands(TWO, 0, 1, 1, "t", Zeros(2000));
  }

  /** Nor does a buffer of 64 kilobytes help data that a UDP datagram cannot carry: 65500 bytes to itself. */
  lemma BeyondUdpStrands() returns (xs: seq<Action>)
    ensures Init(TWO) && Runs(TWO, AddAndSend(0, 0, 1, "t", Zeros(65500)) + xs)
    ensures !CanReturn(Exec(TWO, AddAndSend(0, 0, 1, "t", Zeros(65500)) + xs), 0, 1)
  {
    hide CanReturn, Runs, Exec, Encode, Show, UmqtText, QuotedSize, Zeros;
    ShowOne();
    assert Small(65536, 1, "t", []);
    SmallExchange(65536, 1, "t", []);
    UmqtTextSize(HeaderOf(Msg(Data, Show(1), true, "t", Zeros(65500))));
    EncodeSize(Msg(Data, Show(1), true, "t", Zeros(65500)));
    xs := FreshSendStrands(TWO, 0, 0, 1, "t", Zeros(65500));
  }

  lemma ShowOne()
    ensures Show(1) == "1"
  {
  }

  // ---------------------------------------------------------------- a message handled twice

  /** From an open call to its data on the network and a server ready to take it. */
  lemma RunToData(s: State, a: Addr, k: nat, b: Addr) returns (xs: seq<Action>, t: State)
    requires Ctx(s, a, k, b) && Able(s, a, k, b)
    ensures Leads(s, xs, t) && (forall x | x in xs :: Internal(x))
    ensures b in t.nodes && t.nodes[b].acceptor.Ready? && t.nodes[b].block == s.nodes[b].block
    ensures Packet(a, b, Payload(k, s.nodes[a].calls[k])) in t.net
  {
    hide Fits, Sendable, Sized, Show, Inv, Leads, Chosen, SizedSend, Electable, Grows, KeyOk;
    var ys, u;
    AbleFits(s, a, k, b);
    xs, t := ReachElected(s, a, k, b);
    GrowsAt(s, t, a, k);
    ys, u := Equip(t, a, k, b);
    ReachesThen(s, xs, t, ys, u, a, k, b);
    GrowsAt(t, u, a, k);
    xs, t := xs + ys, u;
    var p := Packet(a, b, Payload(k, s.nodes[a].calls[k]));
    if k in t.nodes[a].finish {
      SenderRuns(t, a, k, b);
      FitsIsSendable(s.nodes[b].block, p.msg);
      xs, t := Then(s, xs, t, Run(a, DoTransmit(k)), a, k, b);
    } else {
      AckedIsReceived(t, a, k);
      CargoIsData(t, a, k);
      ChosenIsTask(t.nodes[a], k);
      ReceivedFits(t, b, a, p.msg);
    }
    assert p in t.net;
    ElectableIsCall(t, a, k, b);
    ys, u := Drain(t, b, a, k, b);
    ReachesThen(s, xs, t, ys, u, a, k, b);
    GrowsAt(s, u, a, k);
    xs, t := xs + ys, u;
  }

  /** From scratch: any reliable message that is small enough for both buffers can be handled twice. */
  lemma FreshSendHandledTwice(s0: State, a: Addr, b: Addr, k: nat, topic: string, bytes: Bytes)
    returns (xs: seq<Action>)
    requires Init(s0) && a in s0.nodes && b in s0.nodes && k <= U128_MAX
    requires Small(s0.nodes[a].block, k, topic, bytes) && Small(s0.nodes[b].block, k, topic, bytes)
    ensures Runs(s0, [Run(b, DoOn(topic))] + AddAndSend(a, b, k, topic, bytes) + xs)
    ensures var s := Exec(s0, [Run(b, DoOn(topic))] + AddAndSend(a, b, k, topic, bytes) + xs);
      b in s.nodes && multiset(s.nodes[b].handled)[(a, Msg(Data, Show(k), true, topic, bytes))] >= 2
    ensures forall x | x in xs :: Internal(x)
  {
    hide Fits, Sendable, Sized, Show, Inv, Leads, Small, SizedSend, Candidate, Grows, Runs, Exec;
    SmallExchange(s0.nodes[a].block, k, topic, bytes);
    SmallExchange(s0.nodes[b].block, k, topic, bytes);
    InitInv(s0);
    var on := Run(b, DoOn(topic));
    var s1 := Next(s0, on);
    StepKeepsInv(s0, on);
    LeadsOne(s0, on);
    var t := Open(s1, a, b, k, topic, bytes);
    LeadsThen(s0, [on], s1, AddAndSend(a, b, k, topic, bytes), t);
    ConsumersStay(s1, AddAndSend(a, b, k, topic, bytes), t, b, topic);
    OpenedIsAble(t, a, b, k, topic, bytes);
    var ys, u := RunToData(t, a, k, b);
    ConsumersStay(t, ys, u, b, topic);
    var p := Packet(a, b, Msg(Data, Show(k), true, topic, bytes));
    var i :| 0 <= i < |u.net| && u.net[i] == p;
    DuplicateIsHandledTwice(u, i);
    IsLeads(u, Twice(i, b), Exec(u, Twice(i, b)));
    LeadsThen(t, ys, u, Twice(i, b), Exec(u, Twice(i, b)));
    xs := ys + Twice(i, b);
    LeadsThen(s0, [on] + AddAndSend(a, b, k, topic, bytes), t, xs, Exec(u, Twice(i, b)));
    LeadsIs(s0, [on] + AddAndSend(a, b, k, topic, bytes) + xs, Exec(u, Twice(i, b)));
  }

  lemma OpenedIsAble(t: State, a: Addr, b: Addr, k: nat, topic: string, bytes: Bytes)
    requires Candidate(t, a, k, b) && t.nodes[a].calls[k] == Call(topic, bytes, true, [b], AtJobs)
    requires Fits(t.nodes[b].block, Msg(Data, Show(k), true, topic, bytes))
    requires Fits(t.nodes[a].block, Msg(Ack, Show(k), true, topic, []))
    ensures Able(t, a, k, b) && Payload(k, t.nodes[a].calls[k]) == Msg(Data, Show(k), true, topic, bytes)
  {
    hide Fits, Show, Chosen;
  }

  // ---------------------------------------------------------------- a misread datagram

  /** The elected sender of data that does not fit is still at work. */
  lemma SenderIsAlive(s: State, a: Addr, k: nat, b: Addr)
    requires Ctx(s, a, k, b) && k in s.nodes[a].tasks && s.nodes[a].calls[k].reliable
    requires Rank(s.nodes[a].calls[k].pc) >= 4 && !Fits(s.nodes[b].block, Payload(k, s.nodes[a].calls[k]))
    ensures Running(s.nodes[a], k) && s.nodes[a].tasks[k] == Task(b, Payload(k, s.nodes[a].calls[k]), true)
  {
    hide Inv, Fits, Sendable, Show, Electable, Chosen;
    ElectableIsCall(s, a, k, b);
    CargoIsData(s, a, k);
    ChosenIsTask(s.nodes[a], k);
    if k !in s.nodes[a].finish {
      AckedIsReceived(s, a, k);
      ReceivedFits(s, s.nodes[a].tasks[k].dst, a, s.nodes[a].tasks[k].data);
      assert false;
    }
    SenderRuns(s, a, k, b);
  }

  lemma ChosenIsTask(n: Node, k: nat)
    requires k in n.tasks
    ensures Chosen(n, k) == Some(n.tasks[k].dst)
  {
  }

  lemma AckedIsReceived(s: State, a: Addr, k: nat)
    requires Inv(s) && ReliableCall(s, a, k) && Rank(s.nodes[a].calls[k].pc) >= 4 && k !in s.nodes[a].finish
    ensures k in s.nodes[a].tasks && ReceivedAt(s, s.nodes[a].tasks[k].dst, a, s.nodes[a].tasks[k].data)
    ensures !Garbled(s.nodes[a].tasks[k].data)
  {
    hide ClientOk, ServerOk, PacketOk, Fits, Sendable, Show, IdOf;
    assert NodeOk(s, a) && FinishOk(s, a, k, s.nodes[a].calls[k]);
  }

  /** A logged datagram reaches an acceptor that is ready, cut to `m`, and is handled. */
  lemma HandleMisread(s: State, xs: seq<Action>, t: State, p: Packet, m: Msg, a: Addr, k: nat, b: Addr)
    returns (ys: seq<Action>, u: State)
    requires Reaches(s, xs, t, a, k, b) && p in t.net && p.dst in t.nodes && p.msg.kind == Data
    requires t.nodes[p.dst].acceptor.Ready? && Receive(t.nodes[p.dst].block, p.msg) == Some(m)
    requires m.kind == Data && !m.reliable && m.topic in t.nodes[p.dst].consumers
    ensures Reaches(s, ys, u, a, k, b) && p.dst in u.nodes && (p.src, m) in u.nodes[p.dst].handled
  {
    hide Inv, Chosen, Leads, Grows, Electable, Receive;
    var i :| 0 <= i < |t.net| && t.net[i] == p;
    ys, u := Then(s, xs, t, Deliver(i), a, k, b);
    assert u.nodes[p.dst].acceptor == Dispatching(p.src, m) && u.nodes[p.dst].consumers == t.nodes[p.dst].consumers;
    ys, u := Then(s, ys, u, Run(p.dst, DoDispatch), a, k, b);
    var handled := u.nodes[p.dst].handled;
    assert handled[|handled| - 1] == (p.src, m);
  }

  lemma ConsumersStay(s: State, xs: seq<Action>, t: State, b: Addr, topic: string)
    requires Leads(s, xs, t) && b in s.nodes && topic in s.nodes[b].consumers
    ensures b in t.nodes && topic in t.nodes[b].consumers
  {
    hide Runs, Exec, Known;
    LeadsIs(s, xs, t);
    Registrations(s, xs, b, topic);
  }

  /** From an open call to a server whose buffer cuts the data inside its header. */
  lemma RunToMisread(s: State, a: Addr, k: nat, b: Addr, m: Msg) returns (xs: seq<Action>, t: State)
    requires Ctx(s, a, k, b) && s.nodes[a].calls[k].reliable && "" in s.nodes[b].consumers
    requires !Fits(s.nodes[b].block, Payload(k, s.nodes[a].calls[k])) && Sendable(Payload(k, s.nodes[a].calls[k]))
    requires Receive(s.nodes[b].block, Payload(k, s.nodes[a].calls[k])) == Some(m) && Garbled(m)
    ensures Leads(s, xs, t) && b in t.nodes && (a, m) in t.nodes[b].handled
    ensures forall x | x in xs :: Internal(x)
  {
    hide Fits, Sendable, Sized, Show, Inv, Leads, Chosen, SizedSend, Electable, Receive, Grows, KeyOk;
    var ys, u;
    ElectableIsCall(s, a, k, b);
    xs, t := ReachElected(s, a, k, b);
    GrowsAt(s, t, a, k);
    ys, u := Equip(t, a, k, b);
    ReachesThen(s, xs, t, ys, u, a, k, b);
    GrowsAt(t, u, a, k);
    xs, t := xs + ys, u;
    SenderIsAlive(t, a, k, b);
    xs, t := Then(s, xs, t, Run(a, DoTransmit(k)), a, k, b);
    GrowsAt(u, t, a, k);
    var p := Packet(a, b, Payload(k, s.nodes[a].calls[k]));
    assert p in t.net;
    ys, u := Drain(t, b, a, k, b);
    ReachesThen(s, xs, t, ys, u, a, k, b);
    ConsumersStay(s, xs + ys, u, b, "");
    GrowsAt(t, u, a, k);
    xs, t := HandleMisread(s, xs + ys, u, p, m, a, k, b);
  }

  lemma MisreadIsGarbled(block: nat, data: Msg)
    requires Sized(data) && Sendable(data) && !Fits(block, data) && Receive(block, data).Some?
    ensures Garbled(Receive(block, data).value)
    ensures |data.bytes| <= |UmqtText(HeaderOf(data))|
    ensures Receive(block, data).value.bytes == UmqtText(HeaderOf(data))[..|data.bytes|]
  {
    hide Encode, UmqtText, Receive, Meta;
    ReceiveCut(block, data);
  }

  /** If the data overflows the server's buffer inside its header, a handler registered for the empty topic is
      given the first bytes of that header for a payload. */
  lemma FreshSendMisread(s0: State, a: Addr, b: Addr, k: nat, topic: string, bytes: Bytes)
    returns (xs: seq<Action>, m: Msg)
    requires Init(s0) && Electing(s0, a, b, k, topic, bytes)
    requires !Fits(s0.nodes[b].block, Msg(Data, Show(k), true, topic, bytes))
    requires Sendable(Msg(Data, Show(k), true, topic, bytes))
    requires Receive(s0.nodes[b].block, Msg(Data, Show(k), true, topic, bytes)).Some?
    ensures Runs(s0, [Run(b, DoOn(""))] + AddAndSend(a, b, k, topic, bytes) + xs)
    ensures var s := Exec(s0, [Run(b, DoOn(""))] + AddAndSend(a, b, k, topic, bytes) + xs);
      b in s.nodes && (a, m) in s.nodes[b].handled
    ensures Garbled(m) && |bytes| <= |UmqtText(UmqtHeader(Show(k), "_", true, topic))|
    ensures m.bytes == UmqtText(UmqtHeader(Show(k), "_", true, topic))[..|bytes|]
    ensures forall x | x in xs :: Internal(x)
  {
    hide Fits, Sendable, Sized, Show, Inv, Leads, Chosen, Electable, Receive, Grows, UmqtText, Garbled, Internal;
    var data := Msg(Data, Show(k), true, topic, bytes);
    m := Receive(s0.nodes[b].block, data).value;
    MisreadIsGarbled(s0.nodes[b].block, data);
    InitInv(s0);
    var on := Run(b, DoOn(""));
    var s1 := Next(s0, on);
    StepKeepsInv(s0, on);
    LeadsOne(s0, on);
    var t := Open(s1, a, b, k, topic, bytes);
    LeadsThen(s0, [on], s1, AddAndSend(a, b, k, topic, bytes), t);
    ConsumersStay(s1, AddAndSend(a, b, k, topic, bytes), t, b, "");
    var u;
    xs, u := RunToMisread(t, a, k, b, m);
    LeadsThen(s0, [on] + AddAndSend(a, b, k, topic, bytes), t, xs, u);
    LeadsIs(s0, [on] + AddAndSend(a, b, k, topic, bytes) + xs, u);
  }

  /** A topic of 967 letters makes an invite of exactly 1024 bytes. */
  function LongTopic(n: nat): (r: string)
    ensures |r| == n && PlainAscii(r)
  {
    seq(n, i => 't')
  }

  lemma LongTopicSizes(kind: Kind, bytes: Bytes)
    requires |bytes| == 0 || |bytes| == 10
    ensures |UmqtText(HeaderOf(Msg(kind, "1", true, LongTopic(967), bytes)))| == 1017
    ensures |Encode(Msg(kind, "1", true, LongTopic(967), bytes))| == if |bytes| == 0 then 1024 else 1035
  {
    hide UmqtText, QuotedSize, Encode;
    var m := Msg(kind, "1", true, LongTopic(967), bytes);
    UmqtTextSize(HeaderOf(m));
    QuotedSizePlain("1");
    QuotedSizePlain(PrefixOf(kind));
    QuotedSizePlain(LongTopic(967));
    EncodeSize(m);
    assert |Show(1017)| == 4 && |Show(0)| == 1 && |Show(10)| == 2;
  }

  /** Ten bytes under a topic of 967 letters, sent to a process with a buffer of one kilobyte, end as ten bytes
      of JSON in a handler for the empty topic. */
  lemma TenBytesMisread() returns (xs: seq<Action>, m: Msg)
    ensures Init(TWO) && Runs(TWO, [Run(1, DoOn(""))] + AddAndSend(0, 1, 1, LongTopic(967), Zeros(10)) + xs)
    ensures var s := Exec(TWO, [Run(1, DoOn(""))] + AddAndSend(0, 1, 1, LongTopic(967), Zeros(10)) + xs);
      1 in s.nodes && (0, m) in s.nodes[1].handled
    ensures Garbled(m) && m.bytes != Zeros(10) && |m.bytes| == 10
    ensures |UmqtText(UmqtHeader("1", "_", true, LongTopic(967)))| == 1017
    ensures m.bytes == UmqtText(UmqtHeader("1", "_", true, LongTopic(967)))[..10]
  {
    hide Runs, Exec, Show, UmqtText, Encode, LongTopic, Garbled, Internal, Receive;
    ShowOne();
    var data := Msg(Data, "1", true, LongTopic(967), Zeros(10));
    LongTopicSizes(Data, Zeros(10));
    LongTopicSizes(Invite, []);
    LongTopicSizes(Volunteer, []);
    LongTopicSizes(Ack, []);
    MisreadWindow(1024, data);
    MetaSize(1017, 10);
    assert |Show(1017)| == 4 && |Show(10)| == 2 by { TwoSizes(); }
    xs, m := FreshSendMisread(TWO, 0, 1, 1, LongTopic(967), Zeros(10));
    TextStartsWithBrace(UmqtHeader("1", "_", true, LongTopic(967)));
    assert m.bytes[0] != Zeros(10)[0];
  }

  lemma TwoSizes()
    ensures |Show(1017)| == 4 && |Show(10)| == 2
  {
  }

  lemma TextStartsWithBrace(h: UmqtHeader)
    ensures UmqtText(h) != [] && UmqtText(h)[0] == 123
  {
  }
}
