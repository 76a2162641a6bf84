/** Schedules of the steps that processes and network take by themselves: how a call gets a server elected. */
module UmqtSchedules {
  import opened Common
  import opened Decimal
  import opened Headers
  import opened UmqtWire
  import opened UmqtNode
  import opened UmqtClient
  import opened UmqtSystem
  import opened UmqtInvariant
  import opened UmqtHistory
  import opened UmqtSafety

  /** `b` runs, is one of the servers the call read, and can win it: its buffer takes the invite, and the
      buffer of the client its vote. */
  predicate Electable(s: State, a: Addr, k: nat, b: Addr) {
    && a in s.nodes && k in s.nodes[a].calls && b in s.nodes
    && (var c := s.nodes[a].calls[k];
        b in c.servers && Fits(s.nodes[b].block, InviteMsg(k, c)) && Fits(s.nodes[a].block, Vote(k, c)))
  }

  /** The server that has won request `k`. */
  function Chosen(n: Node, k: nat): Option<Addr> {
    if k in n.tasks then Some(n.tasks[k].dst)
    else if Busy(n, k) then Some(n.acceptor.from)
    else None
  }

  /** A server that can win, or has won if one has. */
  predicate Candidate(s: State, a: Addr, k: nat, b: Addr) {
    Electable(s, a, k, b) && (Chosen(s.nodes[a], k).None? || Chosen(s.nodes[a], k) == Some(b))
  }

  ghost predicate Ctx(s: State, a: Addr, k: nat, b: Addr) {
    Inv(s) && Candidate(s, a, k, b)
  }

  /** A step that needs no user: no new call and no registration. */
  predicate Internal(x: Action) {
    x.Deliver? || (!x.act.DoAddServer? && !x.act.DoOn? && !x.act.DoBegin?)
  }

  ghost predicate Leads(s: State, xs: seq<Action>, t: State) {
    Runs(s, xs) && Exec(s, xs) == t
  }

  lemma LeadsNone(s: State)
    ensures Leads(s, [], s)
  {
  }

  lemma LeadsOne(s: State, x: Action)
    requires Enabled(s, x)
    ensures Leads(s, [x], Next(s, x))
  {
    hide Enabled, Next;
    assert [x][1..] == [];
    assert Runs(Next(s, x), []) && Exec(Next(s, x), []) == Next(s, x);
    assert Runs(s, [x]);
  }

  lemma {:induction false} LeadsThen(s: State, xs: seq<Action>, t: State, ys: seq<Action>, u: State)
    requires Leads(s, xs, t) && Leads(t, ys, u)
    ensures Leads(s, xs + ys, u)
    decreases |xs|
  {
    hide Enabled, Next;
    if xs == [] {
      assert xs + ys == ys;
    } else {
      LeadsThen(Next(s, xs[0]), xs[1..], t, ys, u);
      assert (xs + ys)[1..] == xs[1..] + ys;
    }
  }

  // ---------------------------------------------------------------- what one step preserves

  lemma ElectableGrows(s: State, t: State, a: Addr, k: nat, b: Addr)
    requires Electable(s, a, k, b) && Grows(s, t)
    ensures Electable(t, a, k, b)
  {
    hide Fits, Sendable, Show;
    assert NodeGrows(s.nodes[a], t.nodes[a]) && NodeGrows(s.nodes[b], t.nodes[b]);
    assert CallGrows(s.nodes[a], t.nodes[a], k);
  }

  /** Electable servers are the same in any earlier state that already knew the call. */
  lemma ElectableShrinks(s: State, t: State, a: Addr, k: nat, b: Addr)
    requires Electable(t, a, k, b) && Grows(s, t) && a in s.nodes && k in s.nodes[a].calls
    ensures Electable(s, a, k, b)
  {
    hide Fits, Sendable, Show;
    GrowsAt(s, t, a, k);
  }

  /** A delivery elects at most the sender of the delivered vote. */
  predicate HarmlessFor(s: State, x: Action, b: Addr)
    requires Enabled(s, x)
  {
    x.Run? || s.net[x.i].msg.kind != Volunteer || s.net[x.i].src == b
  }

  /** No local step elects a server or forgets one. */
  lemma DoKeepsChosen(self: Addr, n: Node, act: Act, k: nat)
    requires KeyOk(n, k) && CanAct(n, act) && k in n.calls
    ensures Chosen(Do(self, n, act).0, k) == Chosen(n, k)
  {
    hide CanAct, Do, KeyOk, Chosen;
    if act.DoTakeJob? || act.DoGetSent? || act.DoDropSent? || act.DoDispatch? {
      AcceptorKeepsChosen(self, n, act, k);
    } else {
      CallerKeepsChosen(self, n, act, k);
    }
  }

  lemma AcceptorKeepsChosen(self: Addr, n: Node, act: Act, k: nat)
    requires KeyOk(n, k) && CanAct(n, act) && k in n.calls
    requires act.DoTakeJob? || act.DoGetSent? || act.DoDropSent? || act.DoDispatch?
    ensures Chosen(Do(self, n, act).0, k) == Chosen(n, k)
  {
    hide SizedSend, Show, Fits, Sendable, Answer;
  }

  lemma CallerKeepsChosen(self: Addr, n: Node, act: Act, k: nat)
    requires KeyOk(n, k) && CanAct(n, act) && k in n.calls
    requires !act.DoTakeJob? && !act.DoGetSent? && !act.DoDropSent? && !act.DoDispatch?
    ensures Chosen(Do(self, n, act).0, k) == Chosen(n, k)
  {
    hide KeyOk, SizedSend, InviteMsg, Emit, DataMsg;
  }

  lemma AcceptChooses(self: Addr, n: Node, from: Addr, arrived: Option<Msg>, k: nat)
    requires n.acceptor.Ready?
    ensures var n' := Accept(self, n, from, arrived).0;
      || Chosen(n', k) == Chosen(n, k)
      || (Chosen(n, k).None? && Chosen(n', k) == Some(from) && arrived.Some? && arrived.value.kind == Volunteer)
  {
    hide IdOf;
  }

  /** A winner stays; without one, a harmless step elects nobody but `b`. */
  lemma StepChooses(s: State, x: Action, a: Addr, k: nat, b: Addr)
    requires Inv(s) && Enabled(s, x) && a in s.nodes && k in s.nodes[a].calls && a in Next(s, x).nodes
    ensures var f, f' := Chosen(s.nodes[a], k), Chosen(Next(s, x).nodes[a], k);
      (f.Some? ==> f' == f) && (f.None? && HarmlessFor(s, x, b) ==> f'.None? || f' == Some(b))
  {
    hide NodeOk, PacketOk, CanAct, Do, KeyOk, Receive, Garbled, Fits, Sendable, IdOf, Accept, Chosen;
    match x
    case Run(d, act) =>
      KeyOkAt(s, a, k);
      if d == a {
        DoKeepsChosen(a, s.nodes[a], act, k);
      }
    case Deliver(i) =>
      var p := s.net[i];
      PacketSized(s, p);
      ReceivedKind(s.nodes[p.dst].block, p.msg);
      if p.dst == a {
        AcceptChooses(a, s.nodes[a], p.src, Receive(s.nodes[a].block, p.msg), k);
        GarbledIsData(Receive(s.nodes[a].block, p.msg));
      }
  }

  lemma GarbledIsData(arrived: Option<Msg>)
    ensures arrived.Some? && Garbled(arrived.value) ==> arrived.value.kind == Data
  {
  }

  /** The first acknowledgement of the request has been taken. */
  predicate Acked(s: State, a: Addr, k: nat) {
    && ReliableCall(s, a, k) && Rank(s.nodes[a].calls[k].pc) >= 4 && k !in s.nodes[a].finish
  }

  lemma DoKeepsAcked(self: Addr, n: Node, act: Act, k: nat)
    requires CanAct(n, act) && k in n.calls && Rank(n.calls[k].pc) >= 4 && k !in n.finish
    ensures k !in Do(self, n, act).0.finish
  {
    hide SizedSend, InviteMsg, Emit, DataMsg;
  }

  lemma AckedStays(s: State, x: Action, a: Addr, k: nat)
    requires Inv(s) && Enabled(s, x) && Acked(s, a, k)
    ensures Acked(Next(s, x), a, k)
  {
    hide Inv, CanAct, Do, Receive, IdOf, Grows;
    StepKeepsInv(s, x);
    GrowsAt(s, Next(s, x), a, k);
    match x
    case Run(b, act) => if a == b { DoKeepsAcked(a, s.nodes[a], act, k); }
    case Deliver(i) =>
  }

  lemma GrowsAt(s: State, t: State, a: Addr, k: nat)
    requires Grows(s, t) && a in s.nodes && k in s.nodes[a].calls
    ensures a in t.nodes && CallGrows(s.nodes[a], t.nodes[a], k) && t.nodes.Keys == s.nodes.Keys
    ensures k in s.nodes[a].tasks ==> TaskGrows(s.nodes[a], t.nodes[a], k)
    ensures forall p | p in s.net :: p in t.net
    ensures forall b | b in s.nodes :: t.nodes[b].block == s.nodes[b].block
  {
    assert NodeGrows(s.nodes[a], t.nodes[a]);
    assert t.net[..|s.net|] == s.net;
  }

  lemma One(s: State, x: Action, a: Addr, k: nat, b: Addr) returns (t: State)
    requires Ctx(s, a, k, b) && Enabled(s, x) && HarmlessFor(s, x, b) && Internal(x)
    ensures t == Next(s, x) && Reaches(s, [x], t, a, k, b) && Grows(s, t)
  {
    hide Inv, Enabled, Next, Electable, Chosen, HarmlessFor, Grows, Acked, Internal;
    if Acked(s, a, k) {
      AckedStays(s, x, a, k);
    }
    t := Next(s, x);
    LeadsOne(s, x);
    StepKeepsInv(s, x);
    ElectableGrows(s, t, a, k, b);
    ElectableIsCall(s, a, k, b);
    ElectableIsCall(t, a, k, b);
    StepChooses(s, x, a, k, b);
  }

  lemma ElectableIsCall(s: State, a: Addr, k: nat, b: Addr)
    requires Electable(s, a, k, b)
    ensures a in s.nodes && k in s.nodes[a].calls && b in s.nodes
  {
  }

  /** `t` is reached from `s` by the schedule `xs` of internal steps without losing anything. */
  ghost predicate Reaches(s: State, xs: seq<Action>, t: State, a: Addr, k: nat, b: Addr) {
    && Leads(s, xs, t) && Ctx(t, a, k, b) && Grows(s, t)
    && (forall x | x in xs :: Internal(x))
    && (a in s.nodes && a in t.nodes && Chosen(s.nodes[a], k).Some? ==> Chosen(t.nodes[a], k).Some?)
    && (Acked(s, a, k) ==> Acked(t, a, k))
  }

  lemma ReachesThen(s: State, xs: seq<Action>, t: State, ys: seq<Action>, u: State, a: Addr, k: nat, b: Addr)
    requires Reaches(s, xs, t, a, k, b) && Reaches(t, ys, u, a, k, b)
    ensures Reaches(s, xs + ys, u, a, k, b)
  {
    hide Inv, Leads, Grows, Electable, Chosen, Acked, Internal;
    LeadsThen(s, xs, t, ys, u);
    GrowsTrans(s, t, u);
    ElectableIsCall(t, a, k, b);
  }

  lemma ReachesNone(s: State, a: Addr, k: nat, b: Addr)
    requires Ctx(s, a, k, b)
    ensures Reaches(s, [], s, a, k, b)
  {
    hide Inv, Electable, Chosen, Leads, Acked;
    LeadsNone(s);
    assert s.net <= s.net;
  }

  /** One more step after a schedule. */
  lemma Then(s: State, xs: seq<Action>, t: State, x: Action, a: Addr, k: nat, b: Addr)
    returns (ys: seq<Action>, u: State)
    requires Reaches(s, xs, t, a, k, b) && Enabled(t, x) && HarmlessFor(t, x, b) && Internal(x)
    ensures u == Next(t, x) && Reaches(s, ys, u, a, k, b) && Grows(t, u)
  {
    hide Inv, Enabled, Next, Electable, Chosen, HarmlessFor, Grows, Leads, Acked, Internal;
    u := One(t, x, a, k, b);
    ys := xs + [x];
    ReachesThen(s, xs, t, [x], u, a, k, b);
  }

  // ---------------------------------------------------------------- stages of the schedule

  /** `send` registers everything and enters the invitation loop. */
  lemma {:induction false} Setup(s: State, a: Addr, k: nat, b: Addr) returns (xs: seq<Action>, t: State)
    requires Ctx(s, a, k, b)
    ensures Reaches(s, xs, t, a, k, b) && Rank(t.nodes[a].calls[k].pc) >= 4
    decreases 4 - Rank(s.nodes[a].calls[k].pc)
  {
    hide Inv, Fits, Sendable, Chosen, Leads, Grows, Show;
    var n := s.nodes[a];
    xs, t := [], s;
    ReachesNone(s, a, k, b);
    if Rank(n.calls[k].pc) < 4 {
      var act := match n.calls[k].pc
        case AtJobs => DoInsertJob(k)
        case AtDiscovery => DoInsertDiscovery(k)
        case AtSent => DoInsertSent(k)
        case _ => DoInsertFinish(k);
      xs, t := Then(s, [], s, Run(a, act), a, k, b);
      var ys, u := Setup(t, a, k, b);
      ReachesThen(s, xs, t, ys, u, a, k, b);
      xs, t := xs + ys, u;
    }
  }

  /** The invitation loop sends on until the invite of server `j` is out. */
  lemma {:induction false} InviteUpTo(s: State, a: Addr, k: nat, b: Addr, j: nat) returns (xs: seq<Action>, t: State)
    requires Ctx(s, a, k, b) && s.nodes[a].calls[k].pc.Inviting?
    requires s.nodes[a].calls[k].pc.next <= j < |s.nodes[a].calls[k].servers|
    ensures Reaches(s, xs, t, a, k, b) && t.nodes[a].calls[k] == s.nodes[a].calls[k].(pc := Inviting(j + 1))
    ensures var c := s.nodes[a].calls[k]; Packet(a, c.servers[j], InviteMsg(k, c)) in t.net
    decreases j - s.nodes[a].calls[k].pc.next
  {
    hide Inv, Fits, Sendable, Chosen, Leads, Grows, Show, KeyOk;
    ReachesNone(s, a, k, b);
    CtxFacts(s, a, k, b);
    FitsIsSendable(s.nodes[b].block, InviteMsg(k, s.nodes[a].calls[k]));
    xs, t := Then(s, [], s, Run(a, DoInvite(k)), a, k, b);
    if s.nodes[a].calls[k].pc.next < j {
      var ys, u := InviteUpTo(t, a, k, b, j);
      ReachesThen(s, xs, t, ys, u, a, k, b);
      xs, t := xs + ys, u;
    }
  }

  /** The tick in progress is finished, and `send` waits in `select!`. */
  lemma FinishTick(s: State, a: Addr, k: nat, b: Addr) returns (xs: seq<Action>, t: State)
    requires Ctx(s, a, k, b) && s.nodes[a].calls[k].pc.Inviting?
    requires s.nodes[a].calls[k].pc.next <= |s.nodes[a].calls[k].servers|
    ensures Reaches(s, xs, t, a, k, b)
    ensures t.nodes[a].calls[k] == s.nodes[a].calls[k].(pc := Waiting(s.nodes[a].calls[k]))
  {
    hide Inv, Chosen, Leads, Grows;
    var c := s.nodes[a].calls[k];
    if c.pc.next == |c.servers| {
      ReachesNone(s, a, k, b);
      xs, t := [], s;
    } else {
      xs, t := InviteUpTo(s, a, k, b, |c.servers| - 1);
    }
  }

  /** Only what the acceptor's own sections write changes. */
  predicate Handling(n: Node, n': Node) {
    n' == n.(acceptor := n'.acceptor, jobs := n'.jobs, sent := n'.sent, sentPermits := n'.sentPermits,
             tasks := n'.tasks, handled := n'.handled)
  }

  function Steps(acceptor: Acceptor): nat {
    match acceptor
    case Ready => 0
    case TakingJob(_, _, _) => 2
    case _ => 1
  }

  function HandlingAct(acceptor: Acceptor): Act
    requires !acceptor.Ready?
  {
    match acceptor
    case TakingJob(_, _, _) => DoTakeJob
    case GettingSent(_, _, _) => DoGetSent
    case DroppingSent(_) => DoDropSent
    case Dispatching(_, _) => DoDispatch
  }

  lemma HandlingStep(self: Addr, n: Node)
    requires !n.acceptor.Ready?
    ensures CanAct(n, HandlingAct(n.acceptor)) && Internal(Run(self, HandlingAct(n.acceptor)))
    ensures var (n', out) := Do(self, n, HandlingAct(n.acceptor));
      out == [] && Handling(n, n') && Steps(n'.acceptor) < Steps(n.acceptor)
  {
  }

  /** The acceptor of `d` finishes what it is doing. */
  lemma {:induction false} Drain(s: State, d: Addr, a: Addr, k: nat, b: Addr) returns (xs: seq<Action>, t: State)
    requires Ctx(s, a, k, b) && d in s.nodes
    ensures Reaches(s, xs, t, a, k, b) && t.net == s.net
    ensures d in t.nodes && t.nodes[d].acceptor.Ready? && Handling(s.nodes[d], t.nodes[d])
    ensures t.nodes == s.nodes[d := t.nodes[d]]
    decreases Steps(s.nodes[d].acceptor)
  {
    hide Inv, Electable, Chosen, Leads, Grows, Do, CanAct, Steps, HandlingAct;
    ReachesNone(s, a, k, b);
    xs, t := [], s;
    if s.nodes[d].acceptor.Ready? {
      assert s.nodes == s.nodes[d := s.nodes[d]];
    } else {
      HandlingStep(d, s.nodes[d]);
      xs, t := Then(s, [], s, Run(d, HandlingAct(s.nodes[d].acceptor)), a, k, b);
      var ys, u := Drain(t, d, a, k, b);
      ReachesThen(s, xs, t, ys, u, a, k, b);
      assert u.nodes == s.nodes[d := u.nodes[d]];
      xs, t := xs + ys, u;
    }
  }

  /** Deliver a logged datagram that fits to an acceptor that is ready. */
  lemma DeliverWhole(s: State, xs: seq<Action>, t: State, p: Packet, a: Addr, k: nat, b: Addr)
    returns (ys: seq<Action>, u: State)
    requires Reaches(s, xs, t, a, k, b) && p in t.net && p.dst in t.nodes
    requires t.nodes[p.dst].acceptor.Ready? && Fits(t.nodes[p.dst].block, p.msg)
    requires p.msg.kind == Volunteer ==> p.src == b
    ensures Reaches(s, ys, u, a, k, b) && Grows(t, u)
    ensures u == Update(t, p.dst, Accept(p.dst, t.nodes[p.dst], p.src, Some(p.msg)))
  {
    hide Inv, Chosen, Leads, Grows, Electable, Accept, Fits, Sendable;
    var i :| 0 <= i < |t.net| && t.net[i] == p;
    ReceiveWhole(t.nodes[p.dst].block, p.msg);
    ys, u := Then(s, xs, t, Deliver(i), a, k, b);
  }

  /** What `Ctx` says about the request's own process. */
  lemma CtxFacts(s: State, a: Addr, k: nat, b: Addr)
    requires Ctx(s, a, k, b)
    ensures a in s.nodes && k in s.nodes[a].calls && KeyOk(s.nodes[a], k)
    ensures b in s.nodes && b in s.nodes[a].calls[k].servers
    ensures var c := s.nodes[a].calls[k];
      Fits(s.nodes[b].block, InviteMsg(k, c)) && Fits(s.nodes[a].block, Vote(k, c))
  {
    hide Inv, KeyOk, Fits, Sendable, Chosen;
    KeyOkAt(s, a, k);
  }

  /** Where a call without a winner stands. */
  lemma UnchosenIsOpen(s: State, a: Addr, k: nat)
    requires a in s.nodes && k in s.nodes[a].calls && KeyOk(s.nodes[a], k)
    ensures Chosen(s.nodes[a], k).None? <==> !Won(s.nodes[a], k)
    ensures Chosen(s.nodes[a], k).None? && Rank(s.nodes[a].calls[k].pc) >= 4 ==>
      s.nodes[a].calls[k].pc.Inviting? && s.nodes[a].calls[k].pc.next <= |s.nodes[a].calls[k].servers| &&
      k in s.nodes[a].discovery
  {
    hide Fits, Sendable, Show, SizedSend;
  }

  // ---------------------------------------------------------------- the exchange

  /** The invite of `b` is put on the network. */
  lemma InviteServer(s: State, a: Addr, k: nat, b: Addr) returns (xs: seq<Action>, t: State)
    requires Ctx(s, a, k, b) && Rank(s.nodes[a].calls[k].pc) >= 4 && Chosen(s.nodes[a], k).None?
    ensures Reaches(s, xs, t, a, k, b) && Packet(a, b, InviteMsg(k, s.nodes[a].calls[k])) in t.net
  {
    hide Inv, KeyOk, Fits, Sendable, Leads, Grows, Chosen, Show, Acked;
    CtxFacts(s, a, k, b);
    UnchosenIsOpen(s, a, k);
    var c := s.nodes[a].calls[k];
    var j :| 0 <= j < |c.servers| && c.servers[j] == b;
    xs, t := FinishTick(s, a, k, b);
    xs, t := Then(s, xs, t, Run(a, DoTick(k)), a, k, b);
    var ys, u := InviteUpTo(t, a, k, b, j);
    ReachesThen(s, xs, t, ys, u, a, k, b);
    xs, t := xs + ys, u;
  }

  /** `b` answers the invite with a vote. */
  lemma GetVote(s: State, a: Addr, k: nat, b: Addr) returns (xs: seq<Action>, t: State)
    requires Ctx(s, a, k, b) && Rank(s.nodes[a].calls[k].pc) >= 4 && Chosen(s.nodes[a], k).None?
    ensures Reaches(s, xs, t, a, k, b) && Packet(b, a, Vote(k, s.nodes[a].calls[k])) in t.net
  {
    hide Inv, KeyOk, Fits, Sendable, Leads, Chosen, Show, Acked, Grows;
    xs, t := InviteServer(s, a, k, b);
    CtxFacts(s, a, k, b);
    FitsIsSendable(s.nodes[a].block, Vote(k, s.nodes[a].calls[k]));
    GrowsAt(s, t, a, k);
    var ys, u := Drain(t, b, a, k, b);
    ReachesThen(s, xs, t, ys, u, a, k, b);
    var invite := Packet(a, b, InviteMsg(k, s.nodes[a].calls[k]));
    xs, t := DeliverWhole(s, xs + ys, u, invite, a, k, b);
  }

  /** The vote of `b` elects it. */
  lemma Elect(s: State, a: Addr, k: nat, b: Addr) returns (xs: seq<Action>, t: State)
    requires Ctx(s, a, k, b) && Rank(s.nodes[a].calls[k].pc) >= 4 && Chosen(s.nodes[a], k).None?
    ensures Reaches(s, xs, t, a, k, b) && Chosen(t.nodes[a], k) == Some(b)
  {
    hide Inv, KeyOk, Fits, Sendable, Leads, Chosen, Show, Acked, Grows, IdOf;
    xs, t := GetVote(s, a, k, b);
    CtxFacts(s, a, k, b);
    GrowsAt(s, t, a, k);
    var ys, u := Drain(t, a, a, k, b);
    ReachesThen(s, xs, t, ys, u, a, k, b);
    xs, t := xs + ys, u;
    CtxFacts(t, a, k, b);
    if Chosen(t.nodes[a], k).None? {
      UnchosenIsOpen(t, a, k);
      var vote := Packet(b, a, Vote(k, s.nodes[a].calls[k]));
      IdOfCall(t, a, k, b);
      xs, u := DeliverWhole(s, xs, t, vote, a, k, b);
      assert u.nodes[a].acceptor == TakingJob(k, b, vote.msg);
      CtxFacts(u, a, k, b);
      UnchosenIsOpen(u, a, k);
      t := u;
    }
  }

  lemma IdOfCall(s: State, a: Addr, k: nat, b: Addr)
    requires Ctx(s, a, k, b)
    ensures IdOf(Show(k)) == k
  {
    hide Inv, Chosen, Fits, Sendable;
    CallIdFits(s, a, k);
    IdOfShow(k);
  }

  /** From any state: set up, and get `b` elected unless it already is. */
  lemma ReachElected(s: State, a: Addr, k: nat, b: Addr) returns (xs: seq<Action>, t: State)
    requires Ctx(s, a, k, b)
    ensures Reaches(s, xs, t, a, k, b) && Chosen(t.nodes[a], k) == Some(b) && Rank(t.nodes[a].calls[k].pc) >= 4
  {
    hide Inv, KeyOk, Leads, Chosen, Grows, Electable;
    xs, t := Setup(s, a, k, b);
    ElectableIsCall(t, a, k, b);
    if Chosen(t.nodes[a], k).None? {
      var ys, u := Elect(t, a, k, b);
      ReachesThen(s, xs, t, ys, u, a, k, b);
      GrowsAt(t, u, a, k);
      xs, t := xs + ys, u;
    }
  }

  /** The elected server's data is handed to its sender. */
  lemma Equip(s: State, a: Addr, k: nat, b: Addr) returns (xs: seq<Action>, t: State)
    requires Ctx(s, a, k, b) && Chosen(s.nodes[a], k).Some?
    ensures Reaches(s, xs, t, a, k, b) && a in t.nodes && k in t.nodes[a].tasks
  {
    hide Inv, KeyOk, Fits, Sendable, Leads, Chosen, Show, Acked, Grows;
    xs, t := Drain(s, a, a, k, b);
    CtxFacts(t, a, k, b);
    UnchosenIsOpen(t, a, k);
  }
}
