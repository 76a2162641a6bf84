/** The invariant of one UMQT process: which of the four maps and which permits belong to a request at
    every point of its life, at lock granularity. */
module UmqtClient {
  import opened Common
  import opened Decimal
  import opened Headers
  import opened UmqtWire
  import opened UmqtNode

  function Rank(pc: Pc): nat {
    match pc
    case AtJobs => 0
    case AtDiscovery => 1
    case AtSent => 2
    case AtFinish => 3
    case Inviting(_) => 4
    case AwaitFinish => 5
    case Returned => 6
  }

  function Vote(k: nat, c: Call): Msg {
    Answer(Volunteer, InviteMsg(k, c))
  }

  function Payload(k: nat, c: Call): Msg {
    DataMsg(Vote(k, c), c.bytes)
  }

  /** The acceptor is between taking the vote for `k` and spawning its sender. */
  predicate Busy(n: Node, k: nat) {
    (n.acceptor.TakingJob? || n.acceptor.GettingSent?) && n.acceptor.k == k
  }

  predicate HasJobOut(n: Node, k: nat) {
    k in n.tasks || (n.acceptor.GettingSent? && n.acceptor.k == k)
  }

  /** A server has won request `k`. */
  predicate Won(n: Node, k: nat) {
    Busy(n, k) || k in n.tasks
  }

  predicate Dropping(n: Node, k: nat) {
    n.acceptor.DroppingSent? && n.acceptor.k == k
  }

  predicate Halted(n: Node, k: nat) {
    k in n.tasks && !n.tasks[k].alive
  }

  /** Shape of the call itself. */
  predicate PcOk(n: Node, k: nat, c: Call) {
    && k <= U128_MAX && c.servers != []
    && SizedSend(k, c.topic, c.bytes, c.reliable)
    && (!c.reliable ==> Rank(c.pc) !in {2, 3, 5})
    && (c.pc.Inviting? ==> c.pc.next <= |c.servers|)
  }

  /** `jobs` and `notify_discovery`. */
  predicate DiscoveryOk(n: Node, k: nat, c: Call) {
    && (Won(n, k) ==> Rank(c.pc) >= 4)
    && (Rank(c.pc) >= 5 ==> Won(n, k))
    && (k in n.jobs <==> Rank(c.pc) >= 1 && !HasJobOut(n, k))
    && (k in n.jobs ==> n.jobs[k] == c.bytes)
    && (k in n.discovery <==> Rank(c.pc) >= 2 && !Won(n, k))
    && (k in n.discoveryPermits <==> Won(n, k) && Rank(c.pc) == 4)
  }

  /** `notify_sent` and `notify_finish` of a reliable send. */
  predicate NotifiersOk(n: Node, k: nat, c: Call) {
    && (k in n.sent <==> Rank(c.pc) >= 3 && k !in n.sentPermits && !Halted(n, k))
    && (k in n.sentPermits ==> Running(n, k))
    && (k in n.finish <==> 4 <= Rank(c.pc) < 6 && k !in n.finishPermits)
    && (k in n.finishPermits ==> 4 <= Rank(c.pc) < 6)
    && (Rank(c.pc) >= 4 && k !in n.finish ==> k in n.tasks)
    && (Rank(c.pc) >= 4 && k !in n.finish ==> (k in n.sent <==> Dropping(n, k)))
    && (k in n.sentPermits || Halted(n, k) || Dropping(n, k) ==> Rank(c.pc) >= 4 && k !in n.finish)
  }

  /** An unreliable send has no acknowledgement state at all. */
  predicate NoAck(n: Node, k: nat) {
    && k !in n.sent && k !in n.finish && k !in n.sentPermits && k !in n.finishPermits
    && !Dropping(n, k) && !(n.acceptor.GettingSent? && n.acceptor.k == k)
  }

  /** What the acceptor and the sender hold for `k` is what the call asked for. */
  predicate CargoOk(n: Node, k: nat, c: Call) {
    && (k in n.tasks ==> !Busy(n, k) && n.tasks[k].dst in c.servers && n.tasks[k].data == Payload(k, c))
    && (Busy(n, k) ==> n.acceptor.from in c.servers)
    && (Busy(n, k) && n.acceptor.TakingJob? ==> n.acceptor.vote == Vote(k, c))
    && (Busy(n, k) && n.acceptor.GettingSent? ==> n.acceptor.data == Payload(k, c))
    && (Won(n, k) ==> Fits(n.block, Vote(k, c)))
  }

  predicate CallOk(n: Node, k: nat, c: Call) {
    && PcOk(n, k, c) && DiscoveryOk(n, k, c) && CargoOk(n, k, c)
    && (if c.reliable then NotifiersOk(n, k, c) else NoAck(n, k))
  }

  predicate Tracked(n: Node, k: nat) {
    k in n.jobs || k in n.discovery || k in n.sent || k in n.finish || k in n.discoveryPermits ||
    k in n.sentPermits || k in n.finishPermits || k in n.tasks || Busy(n, k) || Dropping(n, k)
  }

  ghost predicate ClientOk(n: Node) {
    && (forall k | k in n.calls :: CallOk(n, k, n.calls[k]))
    && (forall k :: Tracked(n, k) ==> k in n.calls)
    && (forall t | t in n.servers :: n.servers[t] != [])
  }

  // ---------------------------------------------------------------- preservation

  lemma InitClientOk(block: nat)
    ensures ClientOk(NewNode(block))
  {
  }

  /** The call of `k` and everything tracked for `k` stay in order, one request at a time. */
  predicate KeyOk(n: Node, k: nat) {
    if k in n.calls then CallOk(n, k, n.calls[k]) else !Tracked(n, k)
  }

  lemma ClientOkByKey(n: Node)
    requires forall k :: KeyOk(n, k)
    requires forall t | t in n.servers :: n.servers[t] != []
    ensures ClientOk(n)
  {
    forall k | k in n.calls ensures CallOk(n, k, n.calls[k]) {
      assert KeyOk(n, k);
    }
    forall k | Tracked(n, k) ensures k in n.calls {
      assert KeyOk(n, k);
    }
  }

  lemma KeyOkOf(n: Node, k: nat)
    requires ClientOk(n)
    ensures KeyOk(n, k)
  {
  }

  lemma BeginKeeps(n: Node, k0: nat, topic: string, bytes: Bytes, reliable: bool, k: nat)
    requires KeyOk(n, k)
    requires CanBegin(n, k0, topic, bytes, reliable) && n.servers[topic] != []
    ensures KeyOk(Begin(n, k0, topic, bytes, reliable), k)
  {
    hide Sized, Fits, Sendable, Show, IdOf;
  }

  lemma InsertJobKeeps(n: Node, k0: nat, k: nat)
    requires KeyOk(n, k) && In(n, k0, AtJobs)
    ensures KeyOk(InsertJob(n, k0), k)
  {
    hide Sized, Fits, Sendable, Show, IdOf;
  }

  lemma InsertDiscoveryKeeps(n: Node, k0: nat, k: nat)
    requires KeyOk(n, k) && In(n, k0, AtDiscovery)
    ensures KeyOk(InsertDiscovery(n, k0), k)
  {
    hide Sized, Fits, Sendable, Show, IdOf;
  }

  lemma InsertSentKeeps(n: Node, k0: nat, k: nat)
    requires KeyOk(n, k) && In(n, k0, AtSent)
    ensures KeyOk(InsertSent(n, k0), k)
  {
    hide Sized, Fits, Sendable, Show, IdOf;
  }

  lemma InsertFinishKeeps(n: Node, k0: nat, k: nat)
    requires KeyOk(n, k) && In(n, k0, AtFinish)
    ensures KeyOk(InsertFinish(n, k0), k)
  {
    hide Sized, Fits, Sendable, Show, IdOf;
  }

  lemma InvitingKeeps(n: Node, k0: nat, next: nat, k: nat)
    requires KeyOk(n, k) && k0 in n.calls && n.calls[k0].pc.Inviting? && next <= |n.calls[k0].servers|
    ensures KeyOk(SetPc(n, k0, Inviting(next)), k)
  {
    hide Sized, Fits, Sendable, Show, IdOf;
  }

  lemma DiscoveredKeeps(n: Node, k0: nat, k: nat)
    requires KeyOk(n, k) && IsWaiting(n, k0) && k0 in n.discoveryPermits
    ensures KeyOk(Discovered(n, k0), k)
  {
    hide Sized, Fits, Sendable, Show, IdOf;
  }

  lemma FinishedKeeps(n: Node, k0: nat, k: nat)
    requires KeyOk(n, k) && In(n, k0, AwaitFinish) && k0 in n.finishPermits
    ensures KeyOk(Finished(n, k0), k)
  {
    hide Sized, Fits, Sendable, Show, IdOf;
  }

  lemma TakeJobKeeps(n: Node, k: nat)
    requires KeyOk(n, k) && n.acceptor.TakingJob?
    ensures KeyOk(TakeJob(n), k)
  {
    hide Sized, Fits, Sendable, Show, IdOf;
  }

  lemma GetSentKeeps(n: Node, k: nat)
    requires KeyOk(n, k) && n.acceptor.GettingSent?
    ensures KeyOk(GetSent(n), k)
  {
    hide Sized, Fits, Sendable, Show, IdOf;
  }

  lemma DropSentKeeps(n: Node, k: nat)
    requires KeyOk(n, k) && n.acceptor.DroppingSent?
    ensures KeyOk(DropSent(n), k)
  {
    hide Sized, Fits, Sendable, Show, IdOf;
  }

  lemma DispatchKeeps(n: Node, k: nat)
    requires KeyOk(n, k) && n.acceptor.Dispatching?
    ensures KeyOk(Dispatch(n), k)
  {
    hide Sized, Fits, Sendable, Show, IdOf;
  }

  lemma OneShotKeeps(n: Node, k0: nat, k: nat)
    requires KeyOk(n, k) && Running(n, k0) && !n.tasks[k0].data.reliable
    ensures KeyOk(Transmit(0, n, k0).0, k)
  {
    hide Sized, Fits, Sendable, Show, IdOf;
  }

  lemma StopKeeps(n: Node, k0: nat, k: nat)
    requires KeyOk(n, k) && Running(n, k0) && k0 in n.sentPermits
    ensures KeyOk(Stop(n, k0), k)
  {
    hide Sized, Fits, Sendable, Show, IdOf;
  }

  /** The first vote for an open request moves the request to the acceptor. */
  lemma AcceptVoteKeeps(n: Node, from: Addr, m: Msg, k: nat)
    requires KeyOk(n, k) && n.acceptor.Ready?
    requires IdOf(m.id) == k && k in n.discovery && k in n.calls ==>
      Rank(n.calls[k].pc) >= 4 && from in n.calls[k].servers && m == Vote(k, n.calls[k]) && Fits(n.block, m)
    ensures KeyOk(AcceptVote(n, from, m), k)
  {
    hide Sized, Fits, Sendable, Show, IdOf;
  }

  /** The first acknowledgement of a request whose data went out. */
  lemma AcceptAckKeeps(n: Node, m: Msg, k: nat)
    requires KeyOk(n, k) && n.acceptor.Ready?
    requires IdOf(m.id) == k && k in n.finish ==> k in n.tasks
    ensures KeyOk(AcceptAck(n, m), k)
  {
    hide Sized, Fits, Sendable, Show, IdOf;
  }

  lemma AcceptDataKeeps(n: Node, received: set<(Addr, Msg)>, from: Addr, m: Msg, k: nat)
    requires KeyOk(n, k) && n.acceptor.Ready?
    ensures KeyOk(n.(received := received, acceptor := Dispatching(from, m)), k)
  {
    hide Sized, Fits, Sendable, Show, IdOf;
  }

  /** Every step of a task of the process keeps its invariant. */
  lemma DoKeepsClientOk(self: Addr, n: Node, act: Act)
    requires ClientOk(n) && CanAct(n, act)
    ensures ClientOk(Do(self, n, act).0)
  {
    hide CallOk, Tracked, KeyOk, SizedSend;
    var n' := Do(self, n, act).0;
    forall k ensures KeyOk(n', k) {
      KeyOkOf(n, k);
      DoKeepsKey(self, n, act, k);
    }
    ClientOkByKey(n');
  }

  lemma DoKeepsKey(self: Addr, n: Node, act: Act, k: nat)
    requires KeyOk(n, k) && CanAct(n, act)
    requires forall t | t in n.servers :: n.servers[t] != []
    ensures KeyOk(Do(self, n, act).0, k)
  {
    hide CallOk, Tracked, SizedSend;
    match act
    case DoAddServer(topic, addr) => RegisterKeeps(n, AddServer(n, topic, addr), k);
    case DoOn(topic) => RegisterKeeps(n, On(n, topic), k);
    case DoBegin(k0, topic, bytes, reliable) => BeginKeeps(n, k0, topic, bytes, reliable, k);
    case DoInsertJob(k0) => InsertJobKeeps(n, k0, k);
    case DoInsertDiscovery(k0) => InsertDiscoveryKeeps(n, k0, k);
    case DoInsertSent(k0) => InsertSentKeeps(n, k0, k);
    case DoInsertFinish(k0) => InsertFinishKeeps(n, k0, k);
    case DoTick(k0) => InvitingKeeps(n, k0, 0, k);
    case DoInvite(k0) => InvitingKeeps(n, k0, n.calls[k0].pc.next + 1, k);
    case DoDiscovered(k0) => DiscoveredKeeps(n, k0, k);
    case DoFinished(k0) => FinishedKeeps(n, k0, k);
    case DoTakeJob => TakeJobKeeps(n, k);
    case DoGetSent => GetSentKeeps(n, k);
    case DoDropSent => DropSentKeeps(n, k);
    case DoDispatch => DispatchKeeps(n, k);
    case DoTransmit(k0) => if !n.tasks[k0].data.reliable { OneShotKeeps(n, k0, k); }
    case DoStop(k0) => StopKeeps(n, k0, k);
  }

  lemma RegisterKeeps(n: Node, n': Node, k: nat)
    requires KeyOk(n, k) && n' == n.(servers := n'.servers, consumers := n'.consumers)
    ensures KeyOk(n', k)
  {
    hide Sized, Fits, Sendable, Show, IdOf;
  }

  /** A vote for an open request comes from a server of the call and echoes its invite, and nobody acknowledges
      what was not sent. */
  predicate Honest(n: Node, from: Addr, arrived: Option<Msg>) {
    arrived.Some? ==>
      var m := arrived.value;
      var k := IdOf(m.id);
      && (m.kind == Volunteer && k in n.discovery && k in n.calls ==>
            Rank(n.calls[k].pc) >= 4 && from in n.calls[k].servers && m == Vote(k, n.calls[k]) && Fits(n.block, m))
      && (m.kind == Ack && k in n.finish ==> k in n.tasks)
  }

  /** The acceptor keeps the invariant too, as long as its peers are honest. */
  lemma AcceptKeepsClientOk(self: Addr, n: Node, from: Addr, arrived: Option<Msg>)
    requires ClientOk(n) && n.acceptor.Ready? && Honest(n, from, arrived)
    ensures ClientOk(Accept(self, n, from, arrived).0)
  {
    hide CallOk, Tracked, KeyOk, Fits, Sendable, Show;
    var n' := Accept(self, n, from, arrived).0;
    if arrived.Some? {
      forall k ensures KeyOk(n', k) {
        KeyOkOf(n, k);
        match arrived.value.kind
        case Invite =>
        case Volunteer => AcceptVoteKeeps(n, from, arrived.value, k);
        case Ack => AcceptAckKeeps(n, arrived.value, k);
        case Data => AcceptDataKeeps(n, n'.received, from, arrived.value, k);
      }
      ClientOkByKey(n');
    }
  }

  /** Only a reliable sender is ever told to stop. */
  lemma PermitIsReliable(n: Node, k: nat)
    requires ClientOk(n) && Running(n, k) && k in n.sentPermits
    ensures n.tasks[k].data.reliable
  {
    hide Fits, Sendable, Show, IdOf, SizedSend;
    assert KeyOk(n, k);
  }
}
