/** RPC over the default in-process producer: concurrent `send` calls, the global `MAP` of waiting callers,
    and consumer tasks that the runtime runs in any order. Several `RPC` objects may share the process. */
module Rpc {
  import opened Common
  import opened Headers
  import opened Json
  import opened RpcWire

  type Instance = nat

  /** The two closures of `on`: the request consumer keeps the response topic. */
  datatype Consumer = Requests(rpc: Instance, resTopic: string) | Responses

  /** Where a call to `send` stands. */
  datatype Pc = AtMap | AtProducer | Receiving | Done(ctx: Json, bytes: Bytes)

  datatype Call = Call(rpc: Instance, topic: string, payload: Json, bytes: Bytes, reliable: bool, pc: Pc)

  /** One run of a user action, with the stream it was given; the spawned consumer that started it is history. */
  datatype Invocation = Invocation(
    rpc: Instance, requestId: nat, resTopic: string, ctx: Json, bytes: Bytes, task: nat)

  datatype Origin = FromCall(k: nat) | FromPush(invocation: nat)

  /** A consumer spawned on the runtime with its frame; `origin` is history. */
  datatype Task = Task(consumer: Consumer, msg: RpcMsg, origin: Origin, ran: bool)

  /** What a channel was sent, and by which task; the index is history. */
  datatype Delivery = Delivery(ctx: Json, bytes: Bytes, task: nat)

  datatype State = State(
    consumers: map<(Instance, string), Consumer>,
    waiting: set<nat>,
    calls: map<nat, Call>,
    channels: map<nat, seq<Delivery>>,
    tasks: seq<Task>,
    invocations: seq<Invocation>)

  const INIT: State := State(map[], {}, map[], map[], [], [])

  function ReqTopic(topic: string): string {
    "req:" + topic
  }

  function ResTopic(topic: string): string {
    "res:" + topic
  }

  function Request(k: nat, c: Call): RpcMsg {
    RpcMsg(ReqTopic(c.topic), k, c.payload, c.reliable, c.bytes)
  }

  function Response(v: Invocation, payload: Json, bytes: Bytes, reliable: bool): RpcMsg {
    RpcMsg(v.resTopic, v.requestId, payload, reliable, bytes)
  }

  /** Every step is one lock section, one spawn or one channel operation. `Push` stands for `push`,
      `push_bytes` (payload `"<bytes>"`) and `push_json` (no bytes), `Begin` for the six `send` forms. */
  datatype Action =
    | OnRequests(rpc: Instance, topic: string)
    | OnResponses(rpc: Instance, topic: string)
    | Begin(k: nat, rpc: Instance, topic: string, payload: Json, bytes: Bytes, reliable: bool)
    | Register(k: nat)
    | Produce(k: nat)
    | RunTask(i: nat)
    | Push(v: nat, payload: Json, bytes: Bytes, reliable: bool)
    | Receive(k: nat)

  predicate In(s: State, k: nat, pc: Pc) {
    k in s.calls && s.calls[k].pc == pc
  }

  predicate Enabled(s: State, x: Action) {
    match x
    case OnRequests(_, _) => true
    case OnResponses(_, _) => true
    case Begin(k, rpc, topic, payload, bytes, reliable) =>
      k !in s.calls && Sized(Request(k, Call(rpc, topic, payload, bytes, reliable, AtMap)))
    case Register(k) => In(s, k, AtMap)
    case Produce(k) => In(s, k, AtProducer)
    case RunTask(i) => i < |s.tasks| && !s.tasks[i].ran
    case Push(v, payload, bytes, reliable) =>
      v < |s.invocations| && Sized(Response(s.invocations[v], payload, bytes, reliable))
    case Receive(k) => In(s, k, Receiving) && k in s.channels && s.channels[k] != []
  }

  function SetPc(s: State, k: nat, pc: Pc): State
    requires k in s.calls
  {
    s.(calls := s.calls[k := s.calls[k].(pc := pc)])
  }

  /** The default producer: spawn the topic's consumer, or drop the message if there is none. */
  function Spawn(s: State, rpc: Instance, m: RpcMsg, origin: Origin): State {
    if (rpc, m.topic) !in s.consumers then s
    else s.(tasks := s.tasks + [Task(s.consumers[(rpc, m.topic)], m, origin, false)])
  }

  /** A consumer decodes its frame; requests start the user action, responses answer the waiting caller. */
  function Consume(s: State, i: nat): State
    requires i < |s.tasks|
  {
    var t := s.tasks[i];
    var s' := s.(tasks := s.tasks[i := t.(ran := true)]);
    match Decode(Encode(t.msg))
    case None => s'
    case Some(content) =>
      match t.consumer
      case Requests(rpc, resTopic) =>
        s'.(invocations := s.invocations +
          [Invocation(rpc, content.requestId, resTopic, content.ctx, content.bytes, i)])
      case Responses => Answer(s', content, i)
  }

  function Answer(s: State, content: Content, i: nat): State {
    var k := content.requestId;
    if k !in s.waiting then s
    else
      var sent := if k in s.channels then s.channels[k] else [];
      s.(waiting := s.waiting - {k},
         channels := s.channels[k := sent + [Delivery(content.ctx, content.bytes, i)]])
  }

  function Next(s: State, x: Action): State
    requires Enabled(s, x)
  {
    match x
    case OnRequests(rpc, topic) =>
      s.(consumers := s.consumers[(rpc, ReqTopic(topic)) := Requests(rpc, ResTopic(topic))])
    case OnResponses(rpc, topic) => s.(consumers := s.consumers[(rpc, ResTopic(topic)) := Responses])
    case Begin(k, rpc, topic, payload, bytes, reliable) =>
      s.(calls := s.calls[k := Call(rpc, topic, payload, bytes, reliable, AtMap)])
    case Register(k) => SetPc(s, k, AtProducer).(waiting := s.waiting + {k})
    case Produce(k) =>
      Spawn(SetPc(s, k, Receiving), s.calls[k].rpc, Request(k, s.calls[k]), FromCall(k))
    case RunTask(i) => Consume(s, i)
    case Push(v, payload, bytes, reliable) =>
      Spawn(s, s.invocations[v].rpc, Response(s.invocations[v], payload, bytes, reliable), FromPush(v))
    case Receive(k) => SetPc(s, k, Done(s.channels[k][0].ctx, s.channels[k][0].bytes))
  }

  predicate Runs(s: State, xs: seq<Action>)
    decreases |xs|
  {
    xs == [] || (Enabled(s, xs[0]) && Runs(Next(s, xs[0]), xs[1..]))
  }

  function Exec(s: State, xs: seq<Action>): State
    requires Runs(s, xs)
    decreases |xs|
  {
    if xs == [] then s else Exec(Next(s, xs[0]), xs[1..])
  }

  // ---------------------------------------------------------------- invariant

  predicate IsReq(name: string) {
    |name| >= 4 && name[..4] == "req:"
  }

  predicate IsRes(name: string) {
    |name| >= 4 && name[..4] == "res:"
  }

  /** Request consumers answer under the response topic of the same name and on the same object. */
  predicate ConsumerOk(key: (Instance, string), c: Consumer) {
    match c
    case Requests(rpc, resTopic) => IsReq(key.1) && rpc == key.0 && resTopic == ResTopic(key.1[4..])
    case Responses => IsRes(key.1)
  }

  /** The request has been handed to the producer. */
  predicate Produced(pc: Pc) {
    pc.Receiving? || pc.Done?
  }

  predicate InvocationOk(s: State, v: Invocation) {
    && v.requestId in s.calls
    && (var c := s.calls[v.requestId];
        v == Invocation(c.rpc, v.requestId, ResTopic(c.topic), c.payload, c.bytes, v.task))
    && v.task < |s.tasks| && s.tasks[v.task].origin == FromCall(v.requestId) && s.tasks[v.task].ran
    && Shallow(v.ctx)
  }

  /** Requests carry what their call asked for; responses carry the id of the invocation that pushed them. */
  predicate TaskOk(s: State, t: Task) {
    && Sized(t.msg)
    && match t.origin
       case FromCall(k) =>
         && k in s.calls && Produced(s.calls[k].pc) && t.msg == Request(k, s.calls[k])
         && t.consumer == Requests(s.calls[k].rpc, ResTopic(s.calls[k].topic))
         && (t.ran && Shallow(t.msg.payload) ==> exists v | 0 <= v < |s.invocations| :: s.invocations[v].requestId == k)
       case FromPush(v) =>
         && v < |s.invocations| && t.consumer == Responses
         && t.msg.requestId == s.invocations[v].requestId && t.msg.topic == s.invocations[v].resTopic
  }

  predicate DeliveryOk(s: State, k: nat, d: Delivery) {
    && d.task < |s.tasks|
    && (var t := s.tasks[d.task];
        t.ran && Shallow(d.ctx) && t.origin.FromPush? && t.msg.requestId == k &&
        t.msg.payload == d.ctx && t.msg.bytes == d.bytes)
  }

  function Sent(s: State, k: nat): seq<Delivery> {
    if k in s.channels then s.channels[k] else []
  }

  predicate CallOk(s: State, k: nat) {
    && (k in s.calls ==> Sized(Request(k, s.calls[k])))
    && (k in s.waiting <==> k in s.calls && s.calls[k].pc != AtMap && Sent(s, k) == [])
    && |Sent(s, k)| <= 1
    && (Sent(s, k) != [] ==> k in s.calls && s.calls[k].pc != AtMap && DeliveryOk(s, k, Sent(s, k)[0]))
    && (k in s.calls && s.calls[k].pc.Done? ==>
          Sent(s, k) != [] && s.calls[k].pc == Done(Sent(s, k)[0].ctx, Sent(s, k)[0].bytes))
  }

  /** A request spawns one consumer, and a consumer starts one action. */
  ghost predicate OnceEach(s: State) {
    && (forall i, j | 0 <= i < j < |s.tasks| && s.tasks[i].origin.FromCall? :: s.tasks[i].origin != s.tasks[j].origin)
    && (forall i, j | 0 <= i < j < |s.invocations| :: s.invocations[i].task != s.invocations[j].task)
  }

  ghost predicate Inv(s: State) {
    && OnceEach(s)
    && (forall key | key in s.consumers :: ConsumerOk(key, s.consumers[key]))
    && (forall i | 0 <= i < |s.invocations| :: InvocationOk(s, s.invocations[i]))
    && (forall i | 0 <= i < |s.tasks| :: TaskOk(s, s.tasks[i]))
    && (forall k :: CallOk(s, k))
  }

  lemma InitInv()
    ensures Inv(INIT)
  {
  }

  // ---------------------------------------------------------------- preservation

  predicate TaskGrows(t: Task, t': Task) {
    t' == t.(ran := t'.ran) && (t.ran ==> t'.ran)
  }

  predicate CallGrows(c: Call, s': State, k: nat) {
    k in s'.calls && s'.calls[k] == c.(pc := s'.calls[k].pc) && (Produced(c.pc) ==> Produced(s'.calls[k].pc))
  }

  /** Calls keep their arguments, invocations stay, tasks only ever run. */
  predicate Grows(s: State, s': State) {
    && (forall k | k in s.calls :: CallGrows(s.calls[k], s', k))
    && s.invocations <= s'.invocations && |s.tasks| <= |s'.tasks|
    && (forall i | 0 <= i < |s.tasks| :: TaskGrows(s.tasks[i], s'.tasks[i]))
  }

  lemma NextGrows(s: State, x: Action)
    requires Enabled(s, x)
    ensures Grows(s, Next(s, x))
  {
    hide Shallow, Decode, Encode, Sized, Request, Response, ReqTopic, ResTopic;
  }

  lemma TaskOkGrows(s: State, s': State, t: Task, t': Task)
    requires TaskOk(s, t) && Grows(s, s') && t' == t.(ran := t'.ran)
    requires t'.ran && !t.ran && t.origin.FromCall? && Shallow(t.msg.payload) ==>
      exists v | 0 <= v < |s'.invocations| :: s'.invocations[v].requestId == t.origin.k
    ensures TaskOk(s', t')
  {
    hide Sized;
    if t.ran && t.origin.FromCall? && Shallow(t.msg.payload) {
      var v :| 0 <= v < |s.invocations| && s.invocations[v].requestId == t.origin.k;
      assert s'.invocations[v] == s.invocations[v];
    }
  }

  lemma ConsumersStayOk(s: State, x: Action)
    requires Inv(s) && Enabled(s, x)
    ensures forall key | key in Next(s, x).consumers :: ConsumerOk(key, Next(s, x).consumers[key])
  {
    hide Shallow, Decode, Encode, Sized, TaskOk, CallOk, InvocationOk;
    if x.OnRequests? {
      assert ReqTopic(x.topic)[4..] == x.topic && ReqTopic(x.topic)[..4] == "req:";
    } else if x.OnResponses? {
      assert ResTopic(x.topic)[..4] == "res:";
    }
  }

  /** A spawned task got the consumer of its own kind. */
  lemma SpawnedOk(s: State, x: Action, t: Task)
    requires Inv(s) && Enabled(s, x) && (x.Produce? || x.Push?)
    requires t in Next(s, x).tasks[|s.tasks|..]
    ensures TaskOk(Next(s, x), t)
  {
    hide Shallow, Decode, Encode, Sized, Sent;
    match x
    case Produce(k) =>
      var c := s.calls[k];
      assert ReqTopic(c.topic)[4..] == c.topic && ReqTopic(c.topic)[..4] == "req:";
      assert "req:"[2] != "res:"[2];
      assert CallOk(s, k);
      assert ConsumerOk((c.rpc, ReqTopic(c.topic)), s.consumers[(c.rpc, ReqTopic(c.topic))]);
    case Push(v, payload, bytes, reliable) =>
      var i := s.invocations[v];
      assert InvocationOk(s, i);
      assert i.resTopic[..4] == "res:" && "req:"[2] != "res:"[2];
      assert ConsumerOk((i.rpc, i.resTopic), s.consumers[(i.rpc, i.resTopic)]);
    case _ =>
  }

  lemma ConsumeDecodes(s: State, i: nat)
    requires i < |s.tasks| && Sized(s.tasks[i].msg)
    ensures var t := s.tasks[i]; var s' := s.(tasks := s.tasks[i := t.(ran := true)]);
      Consume(s, i) ==
        if !Shallow(t.msg.payload) then s'
        else if t.consumer.Responses? then Answer(s', Content(t.msg.requestId, t.msg.payload, t.msg.bytes), i)
        else s'.(invocations := s.invocations +
          [Invocation(t.consumer.rpc, t.msg.requestId, t.consumer.resTopic, t.msg.payload, t.msg.bytes, i)])
  {
    hide Decode, Encode, Sized;
    DecodeEncode(s.tasks[i].msg);
  }

  lemma InvocationsStayOk(s: State, x: Action, i: nat)
    requires Inv(s) && Enabled(s, x) && i < |Next(s, x).invocations|
    ensures InvocationOk(Next(s, x), Next(s, x).invocations[i])
  {
    hide Shallow, Decode, Encode, Sized, CallOk, Consume, ConsumerOk;
    NextGrows(s, x);
    if x.RunTask? {
      assert TaskOk(s, s.tasks[x.i]);
      ConsumeDecodes(s, x.i);
    }
    if i < |s.invocations| {
      assert InvocationOk(s, s.invocations[i]);
      assert Next(s, x).invocations[i] == s.invocations[i];
    }
  }

  lemma TasksStayOk(s: State, x: Action, i: nat)
    requires Inv(s) && Enabled(s, x) && i < |Next(s, x).tasks|
    ensures TaskOk(Next(s, x), Next(s, x).tasks[i])
  {
    hide Shallow, Decode, Encode, Sized, CallOk, ConsumerOk, InvocationOk, Consume;
    var s' := Next(s, x);
    NextGrows(s, x);
    if x.RunTask? {
      assert TaskOk(s, s.tasks[x.i]);
      ConsumeDecodes(s, x.i);
    }
    if i < |s.tasks| {
      assert TaskOk(s, s.tasks[i]);
      if x.RunTask? && x.i == i && s.tasks[i].origin.FromCall? && Shallow(s.tasks[i].msg.payload) {
        assert s'.invocations[|s.invocations|].requestId == s.tasks[i].origin.k;
      }
      TaskOkGrows(s, s', s.tasks[i], s'.tasks[i]);
    } else {
      assert s'.tasks[i] in s'.tasks[|s.tasks|..];
      SpawnedOk(s, x, s'.tasks[i]);
    }
  }

  lemma CallsStayOk(s: State, x: Action, k: nat)
    requires Inv(s) && Enabled(s, x)
    ensures CallOk(Next(s, x), k)
  {
    hide Shallow, Decode, Encode, Sized, ConsumerOk, InvocationOk, Consume, ReqTopic, ResTopic;
    assert CallOk(s, k);
    NextGrows(s, x);
    if x.RunTask? {
      assert TaskOk(s, s.tasks[x.i]);
      ConsumeDecodes(s, x.i);
    }
  }

  /** Only an unsent call produces its request, and only a consumer that has not run yet starts an action. */
  lemma OnceStays(s: State, x: Action)
    requires Inv(s) && Enabled(s, x)
    ensures OnceEach(Next(s, x))
  {
    hide Decode, Encode, Sized, CallOk, ConsumerOk, Consume, ReqTopic, ResTopic, Shallow;
    var s' := Next(s, x);
    NextGrows(s, x);
    if x.RunTask? {
      assert TaskOk(s, s.tasks[x.i]);
      ConsumeDecodes(s, x.i);
    }
    forall i, j | 0 <= i < j < |s'.tasks| && s'.tasks[i].origin.FromCall?
      ensures s'.tasks[i].origin != s'.tasks[j].origin
    {
      if i < |s.tasks| {
        assert TaskOk(s, s.tasks[i]) && TaskGrows(s.tasks[i], s'.tasks[i]);
        assert j < |s.tasks| ==> TaskGrows(s.tasks[j], s'.tasks[j]);
      }
    }
    forall i, j | 0 <= i < j < |s'.invocations| ensures s'.invocations[i].task != s'.invocations[j].task {
      if i < |s.invocations| {
        assert InvocationOk(s, s.invocations[i]) && s'.invocations[i] == s.invocations[i];
        assert j < |s.invocations| ==> s'.invocations[j] == s.invocations[j];
      }
    }
  }

  lemma StepKeepsInv(s: State, x: Action)
    requires Inv(s) && Enabled(s, x)
    ensures Inv(Next(s, x))
  {
    hide Enabled, Next, ConsumerOk, InvocationOk, TaskOk, CallOk, OnceEach;
    var s' := Next(s, x);
    OnceStays(s, x);
    ConsumersStayOk(s, x);
    forall i | 0 <= i < |s'.invocations| ensures InvocationOk(s', s'.invocations[i]) {
      InvocationsStayOk(s, x, i);
    }
    forall i | 0 <= i < |s'.tasks| ensures TaskOk(s', s'.tasks[i]) {
      TasksStayOk(s, x, i);
    }
    forall k ensures CallOk(s', k) {
      CallsStayOk(s, x, k);
    }
  }

  lemma {:induction false} ExecKeepsInv(s: State, xs: seq<Action>)
    requires Inv(s) && Runs(s, xs)
    ensures Inv(Exec(s, xs))
    decreases |xs|
  {
    hide Inv, Enabled, Next;
    if xs != [] {
      StepKeepsInv(s, xs[0]);
      ExecKeepsInv(Next(s, xs[0]), xs[1..]);
    }
  }
}
