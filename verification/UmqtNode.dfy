/** One UMQT process: the shared maps, the calls to `send` in progress, the acceptor, and the spawned
    senders. Every function below is one step no other task can split: a lock section, a wake-up, or one
    `send_to`. A `Notify` is the request id in the set of those that hold a permit. */
module UmqtNode {
  import opened Common
  import opened Decimal
  import opened Headers
  import opened UmqtWire

  type Addr = nat

  datatype Packet = Packet(src: Addr, dst: Addr, msg: Msg)

  /** Where a call to `send` stands. `Inviting(i)` has sent the invite to the first `i` servers of this
      tick; with all of them sent it waits in `select!`. */
  datatype Pc = AtJobs | AtDiscovery | AtSent | AtFinish | Inviting(next: nat) | AwaitFinish | Returned

  datatype Call = Call(topic: string, bytes: Bytes, reliable: bool, servers: seq<Addr>, pc: Pc)

  /** Where the acceptor stands after `recv_from`: it has taken `v` and goes for the job, it has the job and
      goes for the sent notifier, it has taken `x` and goes for the sent notifier, or it goes for a handler. */
  datatype Acceptor =
    | Ready
    | TakingJob(k: nat, from: Addr, vote: Msg)
    | GettingSent(k: nat, from: Addr, data: Msg)
    | DroppingSent(k: nat)
    | Dispatching(from: Addr, data: Msg)

  /** A spawned task: one-shot if the send is not reliable, else the retransmitter. */
  datatype Task = Task(dst: Addr, data: Msg, alive: bool)

  datatype Node = Node(
    block: nat,
    servers: map<string, seq<Addr>>,
    consumers: set<string>,
    jobs: map<nat, Bytes>,
    discovery: set<nat>, sent: set<nat>, finish: set<nat>,
    discoveryPermits: set<nat>, sentPermits: set<nat>, finishPermits: set<nat>,
    calls: map<nat, Call>,
    acceptor: Acceptor,
    tasks: map<nat, Task>,
    received: set<(Addr, Msg)>,
    handled: seq<(Addr, Msg)>)

  /** `UMQT::new`, bound. */
  function NewNode(block: nat): Node {
    Node(block, map[], {}, map[], {}, {}, {}, {}, {}, {}, map[], Ready, map[], {}, [])
  }

  // ---------------------------------------------------------------- messages

  function InviteMsg(k: nat, c: Call): Msg {
    Msg(Invite, Show(k), c.reliable, c.topic, [])
  }

  function Answer(kind: Kind, m: Msg): Msg {
    Msg(kind, m.id, m.reliable, m.topic, [])
  }

  function DataMsg(vote: Msg, bytes: Bytes): Msg {
    Msg(Data, vote.id, vote.reliable, vote.topic, bytes)
  }

  /** `send_to`: a datagram too large for UDP is an error that every caller ignores. */
  function Emit(p: Packet): seq<Packet> {
    if Sendable(p.msg) then [p] else []
  }

  // ---------------------------------------------------------------- registration

  function AddServer(n: Node, topic: string, addr: Addr): Node {
    var known := if topic in n.servers then n.servers[topic] else [];
    n.(servers := n.servers[topic := known + [addr]])
  }

  function On(n: Node, topic: string): Node {
    n.(consumers := n.consumers + {topic})
  }

  // ---------------------------------------------------------------- send

  function SetPc(n: Node, k: nat, pc: Pc): Node
    requires k in n.calls
  {
    n.(calls := n.calls[k := n.calls[k].(pc := pc)])
  }

  predicate In(n: Node, k: nat, pc: Pc) {
    k in n.calls && n.calls[k].pc == pc
  }

  /** `send` has read the servers of the topic and drawn an id no earlier call of this process drew.
      A topic without servers makes `send` return at once. */
  predicate CanBegin(n: Node, k: nat, topic: string, bytes: Bytes, reliable: bool) {
    k !in n.calls && k <= U128_MAX && topic in n.servers && SizedSend(k, topic, bytes, reliable)
  }

  /** The four messages of one exchange have `usize` lengths. */
  predicate SizedSend(k: nat, topic: string, bytes: Bytes, reliable: bool) {
    && Sized(Msg(Invite, Show(k), reliable, topic, [])) && Sized(Msg(Volunteer, Show(k), reliable, topic, []))
    && Sized(Msg(Ack, Show(k), reliable, topic, [])) && Sized(Msg(Data, Show(k), reliable, topic, bytes))
  }

  function Begin(n: Node, k: nat, topic: string, bytes: Bytes, reliable: bool): Node
    requires topic in n.servers
  {
    n.(calls := n.calls[k := Call(topic, bytes, reliable, n.servers[topic], AtJobs)])
  }

  function InsertJob(n: Node, k: nat): Node
    requires In(n, k, AtJobs)
  {
    SetPc(n, k, AtDiscovery).(jobs := n.jobs[k := n.calls[k].bytes])
  }

  /** The waiting state of the invitation loop. */
  function Waiting(c: Call): Pc {
    Inviting(|c.servers|)
  }

  function InsertDiscovery(n: Node, k: nat): Node
    requires In(n, k, AtDiscovery)
  {
    SetPc(n, k, if n.calls[k].reliable then AtSent else Waiting(n.calls[k])).(discovery := n.discovery + {k})
  }

  function InsertSent(n: Node, k: nat): Node
    requires In(n, k, AtSent)
  {
    SetPc(n, k, AtFinish).(sent := n.sent + {k})
  }

  function InsertFinish(n: Node, k: nat): Node
    requires In(n, k, AtFinish)
  {
    SetPc(n, k, Waiting(n.calls[k])).(finish := n.finish + {k})
  }

  predicate IsWaiting(n: Node, k: nat) {
    k in n.calls && n.calls[k].pc == Waiting(n.calls[k])
  }

  function Tick(n: Node, k: nat): Node
    requires IsWaiting(n, k)
  {
    SetPc(n, k, Inviting(0))
  }

  predicate CanInvite(n: Node, k: nat) {
    k in n.calls && n.calls[k].pc.Inviting? && n.calls[k].pc.next < |n.calls[k].servers|
  }

  function SendInvite(self: Addr, n: Node, k: nat): (Node, seq<Packet>)
    requires CanInvite(n, k)
  {
    var c := n.calls[k];
    (SetPc(n, k, Inviting(c.pc.next + 1)), Emit(Packet(self, c.servers[c.pc.next], InviteMsg(k, c))))
  }

  /** `notify_discovery.notified()` wins the `select!`. */
  function Discovered(n: Node, k: nat): Node
    requires k in n.calls
  {
    SetPc(n, k, if n.calls[k].reliable then AwaitFinish else Returned)
      .(discoveryPermits := n.discoveryPermits - {k})
  }

  function Finished(n: Node, k: nat): Node
    requires k in n.calls
  {
    SetPc(n, k, Returned).(finishPermits := n.finishPermits - {k})
  }

  // ---------------------------------------------------------------- acceptor

  /** `recv_from`, the decoder, and the first lock section or `send_to` of the arm the prefix selects. */
  function Accept(self: Addr, n: Node, from: Addr, arrived: Option<Msg>): (Node, seq<Packet>) {
    match arrived
    case None => (n, [])
    case Some(m) =>
      match m.kind
      case Invite => (n, Emit(Packet(self, from, Answer(Volunteer, m))))
      case Volunteer => (AcceptVote(n, from, m), [])
      case Ack => (AcceptAck(n, m), [])
      case Data =>
        (n.(received := n.received + {(from, m)}, acceptor := Dispatching(from, m)),
         if m.reliable then Emit(Packet(self, from, Answer(Ack, m))) else [])
  }

  function AcceptVote(n: Node, from: Addr, m: Msg): Node {
    var k := IdOf(m.id);
    if k !in n.discovery then n
    else n.(discovery := n.discovery - {k}, discoveryPermits := n.discoveryPermits + {k},
            acceptor := TakingJob(k, from, m))
  }

  function AcceptAck(n: Node, m: Msg): Node {
    var k := IdOf(m.id);
    if k !in n.finish then n
    else n.(finish := n.finish - {k}, finishPermits := n.finishPermits + {k}, acceptor := DroppingSent(k))
  }

  /** The job leaves the map; an unreliable one is handed to a one-shot task. */
  function TakeJob(n: Node): Node
    requires n.acceptor.TakingJob?
  {
    var TakingJob(k, from, vote) := n.acceptor;
    if k !in n.jobs then n.(acceptor := Ready)
    else
      var data := DataMsg(vote, n.jobs[k]);
      var n' := n.(jobs := n.jobs - {k});
      if vote.reliable then n'.(acceptor := GettingSent(k, from, data))
      else n'.(acceptor := Ready, tasks := n.tasks[k := Task(from, data, true)])
  }

  /** The sent notifier is cloned, not removed, and the retransmitter is spawned. */
  function GetSent(n: Node): Node
    requires n.acceptor.GettingSent?
  {
    var GettingSent(k, from, data) := n.acceptor;
    if k !in n.sent then n.(acceptor := Ready)
    else n.(acceptor := Ready, tasks := n.tasks[k := Task(from, data, true)])
  }

  function DropSent(n: Node): Node
    requires n.acceptor.DroppingSent?
  {
    var k := n.acceptor.k;
    if k !in n.sent then n.(acceptor := Ready)
    else n.(acceptor := Ready, sent := n.sent - {k}, sentPermits := n.sentPermits + {k})
  }

  function Dispatch(n: Node): Node
    requires n.acceptor.Dispatching?
  {
    var Dispatching(from, data) := n.acceptor;
    n.(acceptor := Ready,
       handled := if data.topic in n.consumers then n.handled + [(from, data)] else n.handled)
  }

  // ---------------------------------------------------------------- spawned tasks

  predicate Running(n: Node, k: nat) {
    k in n.tasks && n.tasks[k].alive
  }

  /** The retransmitter's tick, or the only action of a one-shot task. */
  function Transmit(self: Addr, n: Node, k: nat): (Node, seq<Packet>)
    requires Running(n, k)
  {
    var t := n.tasks[k];
    (if t.data.reliable then n else n.(tasks := n.tasks[k := t.(alive := false)]), Emit(Packet(self, t.dst, t.data)))
  }

  /** `notify_sent.notified()` wins the `select!`. */
  function Stop(n: Node, k: nat): Node
    requires Running(n, k)
  {
    n.(tasks := n.tasks[k := n.tasks[k].(alive := false)], sentPermits := n.sentPermits - {k})
  }

  // ---------------------------------------------------------------- one step of any task

  datatype Act =
    | DoAddServer(topic: string, addr: Addr)
    | DoOn(topic: string)
    | DoBegin(k: nat, topic: string, bytes: Bytes, reliable: bool)
    | DoInsertJob(k: nat)
    | DoInsertDiscovery(k: nat)
    | DoInsertSent(k: nat)
    | DoInsertFinish(k: nat)
    | DoTick(k: nat)
    | DoInvite(k: nat)
    | DoDiscovered(k: nat)
    | DoFinished(k: nat)
    | DoTakeJob
    | DoGetSent
    | DoDropSent
    | DoDispatch
    | DoTransmit(k: nat)
    | DoStop(k: nat)

  predicate CanAct(n: Node, act: Act) {
    match act
    case DoAddServer(_, _) => true
    case DoOn(_) => true
    case DoBegin(k, topic, bytes, reliable) => CanBegin(n, k, topic, bytes, reliable)
    case DoInsertJob(k) => In(n, k, AtJobs)
    case DoInsertDiscovery(k) => In(n, k, AtDiscovery)
    case DoInsertSent(k) => In(n, k, AtSent)
    case DoInsertFinish(k) => In(n, k, AtFinish)
    case DoTick(k) => IsWaiting(n, k)
    case DoInvite(k) => CanInvite(n, k)
    case DoDiscovered(k) => IsWaiting(n, k) && k in n.discoveryPermits
    case DoFinished(k) => In(n, k, AwaitFinish) && k in n.finishPermits
    case DoTakeJob => n.acceptor.TakingJob?
    case DoGetSent => n.acceptor.GettingSent?
    case DoDropSent => n.acceptor.DroppingSent?
    case DoDispatch => n.acceptor.Dispatching?
    case DoTransmit(k) => Running(n, k)
    case DoStop(k) => Running(n, k) && n.tasks[k].data.reliable && k in n.sentPermits
  }

  function Do(self: Addr, n: Node, act: Act): (Node, seq<Packet>)
    requires CanAct(n, act)
  {
    match act
    case DoAddServer(topic, addr) => (AddServer(n, topic, addr), [])
    case DoOn(topic) => (On(n, topic), [])
    case DoBegin(k, topic, bytes, reliable) => (Begin(n, k, topic, bytes, reliable), [])
    case DoInsertJob(k) => (InsertJob(n, k), [])
    case DoInsertDiscovery(k) => (InsertDiscovery(n, k), [])
    case DoInsertSent(k) => (InsertSent(n, k), [])
    case DoInsertFinish(k) => (InsertFinish(n, k), [])
    case DoTick(k) => (Tick(n, k), [])
    case DoInvite(k) => SendInvite(self, n, k)
    case DoDiscovered(k) => (Discovered(n, k), [])
    case DoFinished(k) => (Finished(n, k), [])
    case DoTakeJob => (TakeJob(n), [])
    case DoGetSent => (GetSent(n), [])
    case DoDropSent => (DropSent(n), [])
    case DoDispatch => (Dispatch(n), [])
    case DoTransmit(k) => Transmit(self, n, k)
    case DoStop(k) => (Stop(n, k), [])
  }
}
