/** What every run of RPC puts on the wire, request/response correlation, the echo law, and when an RPC `send`
    can return. */
module RpcTheorems {
  import opened Common
  import opened Headers
  import opened Json
  import opened RpcWire
  import opened Rpc
  import opened RpcRegistrations

  // ---------------------------------------------------------------- origins

  /** The `send` that opened call `k`. */
  function Opening(k: nat, c: Call): Action {
    Begin(k, c.rpc, c.topic, c.payload, c.bytes, c.reliable)
  }

  /** The push that spawned a response. */
  function PushOfTask(t: Task): Action
    requires t.origin.FromPush?
  {
    Push(t.origin.invocation, t.msg.payload, t.msg.bytes, t.msg.reliable)
  }

  lemma StepOrigins(s: State, x: Action, k: nat, i: nat)
    requires Enabled(s, x)
    ensures k in Next(s, x).calls && k !in s.calls ==> x == Opening(k, Next(s, x).calls[k])
    ensures |s.tasks| <= i < |Next(s, x).tasks| && Next(s, x).tasks[i].origin.FromPush? ==>
      x == PushOfTask(Next(s, x).tasks[i])
  {
    hide Decode, Encode, Sized, ReqTopic, ResTopic;
  }

  /** Every call was opened by a `send` of the run with the call's arguments, and every response was spawned
      by a push of the run with the response's contents. */
  lemma {:induction false} Origins(s: State, xs: seq<Action>, k: nat, i: nat)
    requires Runs(s, xs)
    ensures Grows(s, Exec(s, xs))
    ensures k in Exec(s, xs).calls && k !in s.calls ==> Opening(k, Exec(s, xs).calls[k]) in xs
    ensures |s.tasks| <= i < |Exec(s, xs).tasks| && Exec(s, xs).tasks[i].origin.FromPush? ==>
      PushOfTask(Exec(s, xs).tasks[i]) in xs
    decreases |xs|
  {
    hide Enabled, Next;
    if xs == [] {
      assert s.invocations <= s.invocations;
    } else {
      assert xs == [xs[0]] + xs[1..];
      NextGrows(s, xs[0]);
      StepOrigins(s, xs[0], k, i);
      Origins(Next(s, xs[0]), xs[1..], k, i);
      GrowsTrans(s, Next(s, xs[0]), Exec(s, xs));
    }
  }

  lemma GrowsTrans(s: State, t: State, u: State)
    requires Grows(s, t) && Grows(t, u)
    ensures Grows(s, u)
  {
    assert t.invocations == u.invocations[..|t.invocations|];
    assert s.invocations == t.invocations[..|s.invocations|];
    assert s.invocations == u.invocations[..|s.invocations|];
  }

  // ---------------------------------------------------------------- frames

  /** A call keeps the arguments of the `send` that opened it. */
  lemma {:induction false} BegunIs(s: State, xs: seq<Action>, k: nat, c: Call)
    requires Runs(s, xs) && Opening(k, c) in xs
    ensures k in Exec(s, xs).calls && Exec(s, xs).calls[k] == c.(pc := Exec(s, xs).calls[k].pc)
    decreases |xs|
  {
    hide Enabled, Grows;
    var t := Next(s, xs[0]);
    if xs[0] == Opening(k, c) {
      Origins(t, xs[1..], k, 0);
      KeepsCall(t, Exec(s, xs), k);
    } else {
      BegunIs(t, xs[1..], k, c);
    }
  }

  lemma KeepsCall(s: State, t: State, k: nat)
    requires Grows(s, t) && k in s.calls
    ensures k in t.calls && t.calls[k] == s.calls[k].(pc := t.calls[k].pc)
  {
    assert CallGrows(s.calls[k], t, k);
  }

  /** What a `send` puts on the wire: every request task of call `k` in any run carries the arguments of the
      `send` under the `req:` topic, and was spawned because the topic had a request consumer. */
  lemma RequestTasks(xs: seq<Action>, k: nat, rpc: Instance, topic: string, payload: Json, bytes: Bytes,
                     reliable: bool, i: nat)
    requires Runs(INIT, xs) && Begin(k, rpc, topic, payload, bytes, reliable) in xs
    requires i < |Exec(INIT, xs).tasks| && Exec(INIT, xs).tasks[i].origin == FromCall(k)
    ensures var t := Exec(INIT, xs).tasks[i];
      && t.msg == RpcMsg("req:" + topic, k, payload, reliable, bytes)
      && t.consumer == Requests(rpc, "res:" + topic)
  {
    hide Inv, Runs, Exec;
    var c := Call(rpc, topic, payload, bytes, reliable, AtMap);
    BegunIs(INIT, xs, k, c);
    InitInv();
    ExecKeepsInv(INIT, xs);
    RequestIs(Exec(INIT, xs), k, i);
  }

  lemma RequestIs(s: State, k: nat, i: nat)
    requires Inv(s) && i < |s.tasks| && s.tasks[i].origin == FromCall(k)
    ensures k in s.calls
    ensures var c := s.calls[k];
      && s.tasks[i].msg == RpcMsg("req:" + c.topic, k, c.payload, c.reliable, c.bytes)
      && s.tasks[i].consumer == Requests(c.rpc, "res:" + c.topic)
  {
    hide Sized, CallOk, ConsumerOk, InvocationOk, Shallow;
    assert TaskOk(s, s.tasks[i]);
  }

  /** The hand-over of a request spawns exactly one task with that frame if `on` has registered the topic on the
      same object earlier in the run, and does nothing else; otherwise the frame is dropped. */
  lemma ProduceSpawns(xs: seq<Action>, k: nat, rpc: Instance, topic: string, payload: Json, bytes: Bytes,
                      reliable: bool)
    requires Runs(INIT, xs) && Begin(k, rpc, topic, payload, bytes, reliable) in xs
    requires In(Exec(INIT, xs), k, AtProducer)
    ensures var s := Exec(INIT, xs); var t := Next(s, Produce(k));
      && t.tasks == s.tasks +
           (if OnRequests(rpc, topic) in xs
            then [Task(Requests(rpc, "res:" + topic), RpcMsg("req:" + topic, k, payload, reliable, bytes),
                       FromCall(k), false)]
            else [])
      && t.waiting == s.waiting && t.channels == s.channels && t.invocations == s.invocations
      && t.consumers == s.consumers
  {
    hide Sized, Runs, Exec;
    BegunIs(INIT, xs, k, Call(rpc, topic, payload, bytes, reliable, AtMap));
    Registrations(xs, rpc, topic);
  }

  /** A push spawns exactly one response, under the `res:` topic and with the id of the call its action was
      started for, if `on` has registered that topic on the same object; otherwise the frame is dropped. */
  lemma PushSpawns(xs: seq<Action>, v: nat, payload: Json, bytes: Bytes, reliable: bool)
    requires Runs(INIT, xs) && Enabled(Exec(INIT, xs), Push(v, payload, bytes, reliable))
    ensures Exec(INIT, xs).invocations[v].requestId in Exec(INIT, xs).calls
    ensures var s := Exec(INIT, xs); var k := s.invocations[v].requestId; var c := s.calls[k];
      Next(s, Push(v, payload, bytes, reliable)) == s.(tasks := s.tasks +
        if OnResponses(c.rpc, c.topic) in xs
        then [Task(Responses, RpcMsg("res:" + c.topic, k, payload, reliable, bytes), FromPush(v), false)]
        else [])
  {
    hide Sized, Runs, Exec, Inv;
    InitInv();
    ExecKeepsInv(INIT, xs);
    var s := Exec(INIT, xs);
    StreamIs(s, v);
    var c := s.calls[s.invocations[v].requestId];
    Registrations(xs, c.rpc, c.topic);
  }

  lemma StreamIs(s: State, v: nat)
    requires Inv(s) && v < |s.invocations|
    ensures s.invocations[v].requestId in s.calls
    ensures var c := s.calls[s.invocations[v].requestId];
      s.invocations[v].rpc == c.rpc && s.invocations[v].resTopic == "res:" + c.topic
  {
    hide TaskOk, CallOk, ConsumerOk, OnceEach, Shallow;
    assert InvocationOk(s, s.invocations[v]);
  }

  // ---------------------------------------------------------------- correlation

  /** Correlation, for any user actions with zero or more pushes: a channel gets at most one message; that
      message was pushed by an invocation for the same request, which was started with exactly the payload and
      bytes of the call; and the call is in `MAP` exactly while it is registered and unanswered. */
  lemma Correlation(xs: seq<Action>, k: nat)
    requires Runs(INIT, xs)
    ensures var s := Exec(INIT, xs);
      && |Sent(s, k)| <= 1
      && (k in s.waiting <==> k in s.calls && s.calls[k].pc != AtMap && Sent(s, k) == [])
      && (Sent(s, k) != [] ==>
            && k in s.calls && Opening(k, s.calls[k]) in xs
            && exists v | 0 <= v < |s.invocations| ::
                s.invocations[v].requestId == k && PushedBy(s, xs, Sent(s, k)[0], v))
  {
    hide InvocationOk, TaskOk, Sized, Grows;
    InitInv();
    ExecKeepsInv(INIT, xs);
    var s := Exec(INIT, xs);
    assert CallOk(s, k);
    if Sent(s, k) != [] {
      var d := Sent(s, k)[0];
      PushOf(s, d.task);
      var v := s.tasks[d.task].origin.invocation;
      InvocationIs(s, s.invocations[v]);
      Origins(INIT, xs, k, d.task);
      assert s.invocations[v].requestId == k && PushedBy(s, xs, d, v);
    }
  }

  /** `d` was pushed during the run by invocation `v`, which runs on the call's own arguments. */
  predicate PushedBy(s: State, xs: seq<Action>, d: Delivery, v: nat) {
    && v < |s.invocations| && d.task < |s.tasks|
    && Push(v, d.ctx, d.bytes, s.tasks[d.task].msg.reliable) in xs
    && s.invocations[v].requestId in s.calls
    && s.invocations[v].ctx == s.calls[s.invocations[v].requestId].payload
    && s.invocations[v].bytes == s.calls[s.invocations[v].requestId].bytes
  }

  lemma PushOf(s: State, i: nat)
    requires Inv(s) && i < |s.tasks| && s.tasks[i].origin.FromPush?
    ensures var v := s.tasks[i].origin.invocation;
      && v < |s.invocations| && s.invocations[v].requestId == s.tasks[i].msg.requestId
      && InvocationOk(s, s.invocations[v])
  {
    hide Sized, CallOk, ConsumerOk;
    assert TaskOk(s, s.tasks[i]);
  }

  /** At most once: a call's request spawns at most one consumer and starts at most one user action, in any
      run; and an action only ever runs on the call's own arguments. */
  lemma InvokedAtMostOnce(xs: seq<Action>, i: nat, j: nat)
    requires Runs(INIT, xs) && i < |Exec(INIT, xs).invocations| && j < |Exec(INIT, xs).invocations|
    requires Exec(INIT, xs).invocations[i].requestId == Exec(INIT, xs).invocations[j].requestId
    ensures i == j
    ensures var s := Exec(INIT, xs); var v := s.invocations[i];
      && v.requestId in s.calls && Opening(v.requestId, s.calls[v.requestId]) in xs
      && v.ctx == s.calls[v.requestId].payload && v.bytes == s.calls[v.requestId].bytes
  {
    hide TaskOk, CallOk, ConsumerOk, Grows;
    InitInv();
    ExecKeepsInv(INIT, xs);
    var s := Exec(INIT, xs);
    assert InvocationOk(s, s.invocations[i]) && InvocationOk(s, s.invocations[j]);
    Origins(INIT, xs, s.invocations[i].requestId, 0);
  }

  // ---------------------------------------------------------------- echo

  /** Every user action of the run pushes back what it was given, if anything. */
  predicate Echoing(s: State, xs: seq<Action>)
    requires Runs(s, xs)
    decreases |xs|
  {
    xs == [] ||
    (EchoStep(s, xs[0]) && Echoing(Next(s, xs[0]), xs[1..]))
  }

  predicate EchoStep(s: State, x: Action)
    requires Enabled(s, x)
  {
    x.Push? ==> x.payload == s.invocations[x.v].ctx && x.bytes == s.invocations[x.v].bytes
  }

  predicate EchoOk(s: State, t: Task) {
    t.origin.FromPush? ==>
      && t.origin.invocation < |s.invocations|
      && t.msg.payload == s.invocations[t.origin.invocation].ctx
      && t.msg.bytes == s.invocations[t.origin.invocation].bytes
  }

  ghost predicate AllEcho(s: State) {
    forall i | 0 <= i < |s.tasks| :: EchoOk(s, s.tasks[i])
  }

  lemma StepKeepsEcho(s: State, x: Action)
    requires Enabled(s, x) && EchoStep(s, x) && AllEcho(s)
    ensures AllEcho(Next(s, x))
  {
    hide Decode, Encode, Sized, ReqTopic, ResTopic;
    var s' := Next(s, x);
    NextGrows(s, x);
    forall i | 0 <= i < |s'.tasks| ensures EchoOk(s', s'.tasks[i]) {
      if i < |s.tasks| {
        assert EchoOk(s, s.tasks[i]);
        assert forall v | 0 <= v < |s.invocations| :: s'.invocations[v] == s.invocations[v];
      }
    }
  }

  lemma {:induction false} ExecKeepsEcho(s: State, xs: seq<Action>)
    requires Runs(s, xs) && Echoing(s, xs) && AllEcho(s)
    ensures AllEcho(Exec(s, xs))
    decreases |xs|
  {
    hide Enabled, Next, EchoStep, AllEcho;
    if xs != [] {
      StepKeepsEcho(s, xs[0]);
      ExecKeepsEcho(Next(s, xs[0]), xs[1..]);
    }
  }

  /** Echo: over all interleavings of any number of concurrent sends, if the user actions push back what they
      were given, every send that returns returns exactly its own payload and bytes. */
  lemma Echo(xs: seq<Action>, k: nat)
    requires Runs(INIT, xs) && Echoing(INIT, xs)
    requires k in Exec(INIT, xs).calls && Exec(INIT, xs).calls[k].pc.Done?
    ensures var c := Exec(INIT, xs).calls[k];
      Opening(k, c) in xs && c.pc == Done(c.payload, c.bytes) && Shallow(c.payload)
  {
    hide InvocationOk, TaskOk, Sized, EchoOk, Runs, Exec, Echoing, Grows;
    Origins(INIT, xs, k, 0);
    InitInv();
    ExecKeepsInv(INIT, xs);
    ExecKeepsEcho(INIT, xs);
    var s := Exec(INIT, xs);
    assert CallOk(s, k);
    var d := Sent(s, k)[0];
    PushOf(s, d.task);
    EchoedIs(s, d.task);
    InvocationIs(s, s.invocations[s.tasks[d.task].origin.invocation]);
  }

  lemma EchoedIs(s: State, i: nat)
    requires AllEcho(s) && i < |s.tasks| && s.tasks[i].origin.FromPush?
    ensures EchoOk(s, s.tasks[i])
    ensures var v := s.tasks[i].origin.invocation;
      && v < |s.invocations|
      && s.tasks[i].msg.payload == s.invocations[v].ctx && s.tasks[i].msg.bytes == s.invocations[v].bytes
  {
    assert EchoOk(s, s.tasks[i]);
  }

  lemma InvocationIs(s: State, v: Invocation)
    requires InvocationOk(s, v)
    ensures v.requestId in s.calls && v.ctx == s.calls[v.requestId].payload && v.bytes == s.calls[v.requestId].bytes
  {
  }

  // ---------------------------------------------------------------- when a send can return

  predicate Returned(s: State, k: nat) {
    k in s.calls && s.calls[k].pc.Done?
  }

  /** A consumer was spawned for the request. */
  ghost predicate Accepted(s: State, k: nat) {
    exists i | 0 <= i < |s.tasks| :: s.tasks[i].origin == FromCall(k)
  }

  ghost predicate Leads(s: State, xs: seq<Action>, t: State) {
    Runs(s, xs) && Exec(s, xs) == t && Inv(t)
  }

  lemma Then(s: State, xs: seq<Action>, t: State, x: Action) returns (ys: seq<Action>, u: State)
    requires Leads(s, xs, t) && Enabled(t, x)
    ensures u == Next(t, x) && ys == xs + [x] && Leads(s, ys, u)
  {
    hide Inv, Enabled, Next;
    ys, u := xs + [x], Next(t, x);
    StepKeepsInv(t, x);
    ExecThen(s, xs, t, x);
  }

  lemma {:induction false} ExecThen(s: State, xs: seq<Action>, t: State, x: Action)
    requires Leads(s, xs, t) && Enabled(t, x)
    ensures Runs(s, xs + [x]) && Exec(s, xs + [x]) == Next(t, x)
    decreases |xs|
  {
    hide Inv, Enabled, Next;
    var ys := xs + [x];
    if xs == [] {
      assert ys[1..] == [] && Runs(Next(t, x), []) && Exec(Next(t, x), []) == Next(t, x);
    } else {
      ExecThen(Next(s, xs[0]), xs[1..], t, x);
      assert ys[1..] == xs[1..] + [x];
    }
  }

  lemma LeadsInv(s: State, xs: seq<Action>, t: State)
    requires Leads(s, xs, t)
    ensures Inv(t)
  {
  }

  lemma LeadsNone(s: State)
    requires Inv(s)
    ensures Leads(s, [], s)
  {
  }

  /** A response task for `k` that can still run. */
  predicate Responding(s: State, k: nat, i: nat) {
    && i < |s.tasks| && !s.tasks[i].ran && s.tasks[i].origin.FromPush?
    && s.tasks[i].msg.requestId == k && Shallow(s.tasks[i].msg.payload)
  }

  /** Once a response is spawned, nothing but running it and receiving is needed. */
  lemma RespondedReturns(s: State, k: nat, i: nat) returns (u: State)
    requires Inv(s) && In(s, k, Receiving) && Responding(s, k, i)
    ensures Leads(s, [RunTask(i), Receive(k)], u) && Returned(u, k)
  {
    hide Leads, Responding, Inv;
    LeadsNone(s);
    u := RunResponse(s, [], s, k, i);
    assert [] + [RunTask(i), Receive(k)] == [RunTask(i), Receive(k)];
  }

  lemma RunResponse(s: State, xs: seq<Action>, t: State, k: nat, i: nat) returns (u: State)
    requires Leads(s, xs, t) && In(t, k, Receiving) && Responding(t, k, i)
    ensures Leads(s, xs + [RunTask(i), Receive(k)], u) && Returned(u, k)
  {
    hide Decode, Encode, Sized, Leads, ConsumerOk, Consume, Shallow, InvocationOk;
    LeadsInv(s, xs, t);
    assert TaskOk(t, t.tasks[i]) && CallOk(t, k);
    ConsumeDecodes(t, i);
    var ys;
    ys, u := Then(s, xs, t, RunTask(i));
    ys, u := Then(s, ys, u, Receive(k));
    assert ys == xs + [RunTask(i), Receive(k)];
  }

  /** The server's part of an exchange: consumers run, the response topic is registered, the action pushes. */
  predicate Serving(x: Action, k: nat) {
    x.RunTask? || x.OnResponses? || x.Push? || x == Receive(k)
  }

  /** Given an invocation for `k`, a response consumer and an echoing push spawn a response. */
  lemma PushEcho(s: State, xs: seq<Action>, t: State, k: nat, v: nat) returns (ys: seq<Action>, u: State)
    requires Leads(s, xs, t) && In(t, k, Receiving)
    requires v < |t.invocations| && t.invocations[v].requestId == k
    requires forall x | x in xs :: Serving(x, k)
    ensures Leads(s, ys, u) && In(u, k, Receiving) && Responding(u, k, |t.tasks|)
    ensures forall x | x in ys :: Serving(x, k)
  {
    hide Decode, Encode, Sized, Leads, TaskOk, ConsumerOk, Shallow;
    var i := t.invocations[v];
    LeadsInv(s, xs, t);
    assert InvocationOk(t, i) && CallOk(t, k);
    var c := t.calls[k];
    ResponseSized(c.topic, k, c.payload, c.reliable, c.bytes);
    ys, u := Then(s, xs, t, OnResponses(i.rpc, c.topic));
    ys, u := Then(s, ys, u, Push(v, c.payload, c.bytes, c.reliable));
  }

  /** The consumer of an accepted request starts the action, unless it already has. */
  lemma StartAction(s: State, k: nat) returns (ys: seq<Action>, u: State, v: nat)
    requires Inv(s) && In(s, k, Receiving) && Accepted(s, k) && Shallow(s.calls[k].payload)
    ensures Leads(s, ys, u) && In(u, k, Receiving)
    ensures v < |u.invocations| && u.invocations[v].requestId == k
    ensures forall x | x in ys :: Serving(x, k)
  {
    hide Decode, Encode, Sized, Leads, ConsumerOk, Consume, ResTopic, ReqTopic, Shallow, InvocationOk;
    LeadsNone(s);
    ys, u := [], s;
    var i :| 0 <= i < |s.tasks| && s.tasks[i].origin == FromCall(k);
    assert TaskOk(s, s.tasks[i]);
    if s.tasks[i].ran {
      v :| 0 <= v < |s.invocations| && s.invocations[v].requestId == k;
    } else {
      ConsumeDecodes(s, i);
      ys, u := Then(s, ys, u, RunTask(i));
      v := |s.invocations|;
    }
  }

  /** An accepted request with a shallow payload can be answered, by steps of the serving side alone. */
  lemma AnswerAccepted(s: State, k: nat) returns (ys: seq<Action>, u: State)
    requires Inv(s) && In(s, k, Receiving) && Accepted(s, k) && Shallow(s.calls[k].payload)
    ensures Leads(s, ys, u) && Returned(u, k)
    ensures forall x | x in ys :: Serving(x, k)
  {
    hide Inv, Leads, Accepted, Shallow, Responding;
    var v;
    ys, u, v := StartAction(s, k);
    var j := |u.tasks|;
    ys, u := PushEcho(s, ys, u, k, v);
    u := RunResponse(s, ys, u, k, j);
    ys := ys + [RunTask(j), Receive(k)];
  }

  /** Nobody will ever answer: the request found no consumer, or one that cannot read it. */
  ghost predicate Dropped(s: State, k: nat) {
    k in s.calls && s.calls[k].pc == Receiving && !(Accepted(s, k) && Shallow(s.calls[k].payload))
  }

  lemma DroppedIsUnanswered(s: State, k: nat)
    requires Inv(s) && Dropped(s, k)
    ensures Sent(s, k) == []
  {
    hide Sized, ConsumerOk, TaskOk, Shallow;
    assert CallOk(s, k);
    if Sent(s, k) != [] {
      var v := PushedInvocation(s, Sent(s, k)[0].task);
      InvocationAccepted(s, v);
      assert false;
    }
  }

  lemma InvocationAccepted(s: State, v: Invocation)
    requires InvocationOk(s, v)
    ensures Accepted(s, v.requestId) && Shallow(s.calls[v.requestId].payload)
  {
  }

  lemma PushedInvocation(s: State, i: nat) returns (v: Invocation)
    requires Inv(s) && i < |s.tasks| && s.tasks[i].origin.FromPush?
    ensures InvocationOk(s, v) && v.requestId == s.tasks[i].msg.requestId
  {
    PushOf(s, i);
    v := s.invocations[s.tasks[i].origin.invocation];
  }

  lemma StaysDropped(s: State, x: Action, k: nat)
    requires Inv(s) && Enabled(s, x) && Dropped(s, k)
    ensures Dropped(Next(s, x), k)
  {
    hide Decode, Encode, Sized, ConsumerOk, Consume, ReqTopic, ResTopic, Shallow, CallOk, InvocationOk;
    DroppedIsUnanswered(s, k);
    NextGrows(s, x);
    if x.RunTask? {
      assert TaskOk(s, s.tasks[x.i]);
      ConsumeDecodes(s, x.i);
    }
    forall i | 0 <= i < |Next(s, x).tasks| && Next(s, x).tasks[i].origin == FromCall(k) ensures Accepted(s, k) {
      assert i < |s.tasks|;
      assert TaskGrows(s.tasks[i], Next(s, x).tasks[i]);
    }
  }

  lemma {:induction false} DroppedNeverReturns(s: State, xs: seq<Action>, k: nat)
    requires Inv(s) && Runs(s, xs) && Dropped(s, k)
    ensures !Returned(Exec(s, xs), k)
    decreases |xs|
  {
    hide Inv, Enabled, Next, Accepted, Shallow;
    if xs != [] {
      StaysDropped(s, xs[0], k);
      StepKeepsInv(s, xs[0]);
      DroppedNeverReturns(Next(s, xs[0]), xs[1..], k);
    }
  }

  /** A `send` that hands over its request can return afterwards if and only if `on` has registered its topic on
      the same object earlier in the run and the payload nests at most 126 deep; otherwise the request is lost
      silently and the caller waits forever. */
  lemma ReturnsIff(xs: seq<Action>, k: nat)
    requires Runs(INIT, xs) && In(Exec(INIT, xs), k, AtProducer)
    ensures var c := Exec(INIT, xs).calls[k]; var t := Next(Exec(INIT, xs), Produce(k));
      (exists ys :: Runs(t, ys) && Returned(Exec(t, ys), k)) <==>
        OnRequests(c.rpc, c.topic) in xs && Depth(c.payload, true) <= 126
  {
    hide Inv, Accepted, Sized, Returned, ReqTopic, Runs, Exec;
    InitInv();
    ExecKeepsInv(INIT, xs);
    var s := Exec(INIT, xs);
    var t := Next(s, Produce(k));
    StepKeepsInv(s, Produce(k));
    AcceptedIff(s, k);
    Registrations(xs, s.calls[k].rpc, s.calls[k].topic);
    if Accepted(t, k) && Shallow(s.calls[k].payload) {
      var ys, u := AnswerAccepted(t, k);
      assert Runs(t, ys) && Returned(Exec(t, ys), k) by { LeadsIs(t, ys, u); }
    } else {
      forall ys | Runs(t, ys) ensures !Returned(Exec(t, ys), k) {
        DroppedNeverReturns(t, ys, k);
      }
    }
  }

  lemma LeadsIs(s: State, xs: seq<Action>, t: State)
    requires Leads(s, xs, t)
    ensures Runs(s, xs) && Exec(s, xs) == t
  {
  }

  lemma AcceptedIff(s: State, k: nat)
    requires Inv(s) && In(s, k, AtProducer)
    ensures var t := Next(s, Produce(k));
      && In(t, k, Receiving) && t.calls[k].payload == s.calls[k].payload
      && (Accepted(t, k) <==> (s.calls[k].rpc, "req:" + s.calls[k].topic) in s.consumers)
  {
    hide Sized, ConsumerOk, CallOk, InvocationOk, Shallow;
    var t := Next(s, Produce(k));
    forall i | 0 <= i < |s.tasks| ensures s.tasks[i].origin != FromCall(k) {
      assert TaskOk(s, s.tasks[i]);
    }
    if (s.calls[k].rpc, "req:" + s.calls[k].topic) in s.consumers {
      assert t.tasks[|s.tasks|].origin == FromCall(k);
    }
  }

  // ---------------------------------------------------------------- inputs that hang

  /** Calls on a topic nobody registered, from a fresh process. */
  function Unregistered(payload: Json): seq<Action> {
    [Begin(1, 0, "t", payload, [], true), Register(1), Produce(1)]
  }

  /** The same after registering the topic. */
  function Registered(payload: Json): seq<Action> {
    [OnRequests(0, "t"), OnResponses(0, "t")] + Unregistered(payload)
  }

  /** `depth` arrays around a null. */
  function Nested(depth: nat): Json {
    if depth == 0 then Null else Arr([Nested(depth - 1)])
  }

  lemma {:induction false} NestedFacts(depth: nat)
    ensures Depth(Nested(depth), true) == depth && |Print(Nested(depth))| == 2 * depth + 4
  {
    if depth > 0 {
      NestedFacts(depth - 1);
    }
  }

  /** A fresh call for a topic without a consumer never returns. */
  lemma NoConsumerHangs(ys: seq<Action>)
    ensures Runs(INIT, Unregistered(Null))
    ensures Runs(Exec(INIT, Unregistered(Null)), ys) ==> !Returned(Exec(Exec(INIT, Unregistered(Null)), ys), 1)
  {
    hide Sized, Print;
    NestedFacts(0);
    SmallSized(Request(1, Call(0, "t", Null, [], true, AtMap)));
    var t := RunUnregistered(INIT, Null);
    if Runs(t, ys) {
      InitInv();
      ExecKeepsInv(INIT, Unregistered(Null));
      DroppedNeverReturns(t, ys, 1);
    }
  }

  lemma RunUnregistered(s: State, payload: Json) returns (t: State)
    requires s.calls == map[] && s.tasks == [] && Sized(Request(1, Call(0, "t", payload, [], true, AtMap)))
    ensures Runs(s, Unregistered(payload)) && t == Exec(s, Unregistered(payload))
    ensures In(t, 1, Receiving) && t.calls[1].payload == payload
    ensures (0, ReqTopic("t")) !in s.consumers ==> t.tasks == []
  {
    hide Sized;
    var xs := Unregistered(payload);
    var s1 := Next(s, xs[0]);
    var s2 := Next(s1, Register(1));
    t := Next(s2, Produce(1));
    assert xs[1..] == [Register(1), Produce(1)] && xs[1..][1..] == [Produce(1)] && xs[1..][1..][1..] == [];
    assert Runs(s2, [Produce(1)]) && Exec(s2, [Produce(1)]) == t;
    assert Runs(s1, [Register(1), Produce(1)]) && Exec(s1, [Register(1), Produce(1)]) == t;
  }

  /** Nor does a call whose payload nests 127 deep, although its topic has a consumer. */
  lemma DeepPayloadHangs(ys: seq<Action>)
    ensures Runs(INIT, Registered(Nested(127)))
    ensures Runs(Exec(INIT, Registered(Nested(127))), ys) ==>
      !Returned(Exec(Exec(INIT, Registered(Nested(127))), ys), 1)
  {
    hide Sized, Print, Nested;
    NestedFacts(127);
    SmallSized(Request(1, Call(0, "t", Nested(127), [], true, AtMap)));
    var xs := Registered(Nested(127));
    var s1 := Next(INIT, xs[0]);
    var s2 := Next(s1, OnResponses(0, "t"));
    var t := RunUnregistered(s2, Nested(127));
    assert xs[1..][1..] == Unregistered(Nested(127)) && xs[1] == OnResponses(0, "t");
    assert Runs(s1, xs[1..]) && Exec(s1, xs[1..]) == t;
    if Runs(t, ys) {
      InitInv();
      ExecKeepsInv(INIT, xs);
      DroppedNeverReturns(t, ys, 1);
    }
  }
}
