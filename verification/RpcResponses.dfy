/** When a response reaches its caller: the producer drops a response like it drops a request, and its consumer
    refuses what it cannot read. */
module RpcResponses {
  import opened Common
  import opened Headers
  import opened Json
  import opened RpcWire
  import opened Rpc
  import opened RpcRegistrations
  import opened RpcTheorems

  /** Nothing has been sent to the caller of `k`, and no response for it is left to run. */
  ghost predicate Unanswered(s: State, k: nat) {
    Sent(s, k) == [] && forall i: nat :: !Responding(s, k, i)
  }

  /** The producer finds a consumer for the response, and the consumer will be able to read it. */
  predicate Arrives(s: State, v: Invocation, payload: Json) {
    (v.rpc, v.resTopic) in s.consumers && Shallow(payload)
  }

  /** The step is a push by the action of call `k` that will reach the caller. */
  predicate Lands(s: State, x: Action, k: nat) {
    x.Push? && x.v < |s.invocations| && s.invocations[x.v].requestId == k && Arrives(s, s.invocations[x.v], x.payload)
  }

  /** Some push of the run lands. */
  predicate LandsIn(s: State, xs: seq<Action>, k: nat)
    requires Runs(s, xs)
    decreases |xs|
  {
    xs != [] && (Lands(s, xs[0], k) || LandsIn(Next(s, xs[0]), xs[1..], k))
  }

  // ---------------------------------------------------------------- one step

  lemma PushAnswers(s: State, x: Action, k: nat)
    requires Inv(s) && Enabled(s, x) && x.Push?
    ensures Unanswered(Next(s, x), k) <==> Unanswered(s, k) && !Lands(s, x, k)
    ensures Lands(s, x, k) ==> Responding(Next(s, x), k, |s.tasks|)
  {
    hide Decode, Encode, Sized, Shallow, TaskOk, CallOk, ConsumerOk, InvocationOk;
    var s' := Next(s, x);
    assert Sent(s', k) == Sent(s, k);
    assert Responding(s', k, |s.tasks|) <==> Lands(s, x, k);
    forall i: nat ensures Responding(s', k, i) <==> Responding(s, k, i) || (i == |s.tasks| && Lands(s, x, k)) {
    }
  }

  /** A waiting caller whose action has been started is in `MAP` until it is answered. */
  lemma ResponderWaits(s: State, k: nat, i: nat)
    requires Inv(s) && Responding(s, k, i)
    ensures s.tasks[i].consumer == Responses && Sized(s.tasks[i].msg)
    ensures k in s.waiting <==> Sent(s, k) == []
  {
    hide Sized, Shallow, ConsumerOk;
    assert TaskOk(s, s.tasks[i]);
    var v := s.invocations[s.tasks[i].origin.invocation];
    assert InvocationOk(s, v) && TaskOk(s, s.tasks[v.task]) && CallOk(s, k);
  }

  /** Running a readable response answers the caller, unless it is answered already. */
  lemma ResponderAnswers(s: State, k: nat, i: nat)
    requires Inv(s) && Responding(s, k, i)
    ensures Sent(Next(s, RunTask(i)), k) != []
  {
    hide Decode, Encode, Sized, Shallow, TaskOk, CallOk, Inv, Consume;
    ResponderWaits(s, k, i);
    ConsumeDecodes(s, i);
  }

  lemma RunAnswers(s: State, j: nat, k: nat)
    requires Inv(s) && Enabled(s, RunTask(j))
    ensures Unanswered(Next(s, RunTask(j)), k) <==> Unanswered(s, k)
  {
    hide Decode, Encode, Sized, Shallow, CallOk, ConsumerOk, InvocationOk, Consume;
    var s' := Next(s, RunTask(j));
    assert TaskOk(s, s.tasks[j]);
    ConsumeDecodes(s, j);
    assert forall i: nat | i != j :: Responding(s', k, i) == Responding(s, k, i);
    assert !Responding(s', k, j);
    if Responding(s, k, j) {
      ResponderAnswers(s, k, j);
    } else {
      assert Sent(s', k) == Sent(s, k);
    }
  }

  lemma OtherAnswers(s: State, x: Action, k: nat)
    requires Enabled(s, x) && !x.Push? && !x.RunTask?
    ensures Unanswered(Next(s, x), k) <==> Unanswered(s, k)
  {
    hide Decode, Encode, Sized, Shallow;
    var s' := Next(s, x);
    assert Sent(s', k) == Sent(s, k);
    forall i: nat ensures Responding(s', k, i) == Responding(s, k, i) {
    }
  }

  /** A caller stops being unanswered exactly by a push that lands. */
  lemma StepAnswers(s: State, x: Action, k: nat)
    requires Inv(s) && Enabled(s, x)
    ensures Unanswered(Next(s, x), k) <==> Unanswered(s, k) && !Lands(s, x, k)
  {
    hide Inv, Enabled, Next, Unanswered, Arrives;
    match x
    case Push(_, _, _, _) => PushAnswers(s, x, k);
    case RunTask(j) => RunAnswers(s, j, k);
    case _ => OtherAnswers(s, x, k);
  }

  lemma {:induction false} ExecAnswers(s: State, xs: seq<Action>, k: nat)
    requires Inv(s) && Runs(s, xs)
    ensures Unanswered(Exec(s, xs), k) <==> Unanswered(s, k) && !LandsIn(s, xs, k)
    decreases |xs|
  {
    hide Inv, Enabled, Next, Unanswered, Lands;
    if xs != [] {
      StepAnswers(s, xs[0], k);
      StepKeepsInv(s, xs[0]);
      ExecAnswers(Next(s, xs[0]), xs[1..], k);
    }
  }

  // ---------------------------------------------------------------- returning without further pushes

  /** Consumers that are spawned run, and the caller receives; nobody registers, sends or pushes. */
  predicate Settling(x: Action, k: nat) {
    x.RunTask? || x == Receive(k)
  }

  ghost predicate Settles(s: State, k: nat) {
    exists ys :: Runs(s, ys) && (forall x | x in ys :: Settling(x, k)) && Returned(Exec(s, ys), k)
  }

  /** The call returns in some continuation in which its action makes no push that lands. */
  ghost predicate ReturnsWithoutPush(s: State, k: nat) {
    exists ys :: Runs(s, ys) && !LandsIn(s, ys, k) && Returned(Exec(s, ys), k)
  }

  lemma ReturnedIsAnswered(s: State, k: nat)
    requires Inv(s) && Returned(s, k)
    ensures !Unanswered(s, k)
  {
    hide Sized, Shallow, TaskOk, ConsumerOk, InvocationOk;
    assert CallOk(s, k);
  }

  lemma {:induction false} SettlingLandsNothing(s: State, ys: seq<Action>, k: nat)
    requires Runs(s, ys) && forall x | x in ys :: Settling(x, k)
    ensures !LandsIn(s, ys, k)
    decreases |ys|
  {
    hide Enabled, Next, Arrives;
    if ys != [] {
      assert ys[0] in ys;
      assert forall x | x in ys[1..] :: x in ys;
      SettlingLandsNothing(Next(s, ys[0]), ys[1..], k);
    }
  }

  /** A waiting caller returns by running what is spawned if and only if it is answered or a readable response
      for it is left to run; otherwise nothing but a push that lands can help it. */
  lemma SettlesIff(s: State, k: nat)
    requires Inv(s) && In(s, k, Receiving)
    ensures Settles(s, k) <==> !Unanswered(s, k)
    ensures ReturnsWithoutPush(s, k) <==> !Unanswered(s, k)
  {
    hide Inv, Responding, Runs, Exec, LandsIn, Settling;
    if ys :| Runs(s, ys) && !LandsIn(s, ys, k) && Returned(Exec(s, ys), k) {
      ExecKeepsInv(s, ys);
      ReturnedIsAnswered(Exec(s, ys), k);
      ExecAnswers(s, ys, k);
    }
    if ys :| Runs(s, ys) && (forall x | x in ys :: Settling(x, k)) && Returned(Exec(s, ys), k) {
      SettlingLandsNothing(s, ys, k);
      ExecKeepsInv(s, ys);
      ReturnedIsAnswered(Exec(s, ys), k);
      ExecAnswers(s, ys, k);
    }
    if !Unanswered(s, k) {
      var ys := Settle(s, k);
      SettlingLandsNothing(s, ys, k);
    }
  }

  lemma Settle(s: State, k: nat) returns (ys: seq<Action>)
    requires Inv(s) && In(s, k, Receiving) && !Unanswered(s, k)
    ensures Runs(s, ys) && (forall x | x in ys :: Settling(x, k)) && Returned(Exec(s, ys), k)
  {
    hide Inv, Responding, Leads, Returned;
    if Sent(s, k) != [] {
      LeadsNone(s);
      var u;
      ys, u := Then(s, [], s, Receive(k));
      LeadsIs(s, ys, u);
      ReceivedReturns(s, k);
    } else {
      var i: nat :| Responding(s, k, i);
      var u := RespondedReturns(s, k, i);
      ys := [RunTask(i), Receive(k)];
      LeadsIs(s, ys, u);
    }
  }

  lemma ReceivedReturns(s: State, k: nat)
    requires Enabled(s, Receive(k))
    ensures Returned(Next(s, Receive(k)), k)
  {
  }

  // ---------------------------------------------------------------- the exact conditions

  /** One push, exactly: after a push for a waiting caller that nothing else will answer, running what is spawned
      returns the call if and only if `on` had registered the response side of the call's topic by then and the
      pushed payload nests at most 126 deep; otherwise the response is lost silently. */
  lemma PushSettlesIff(xs: seq<Action>, v: nat, payload: Json, bytes: Bytes, reliable: bool)
    requires Runs(INIT, xs) && Enabled(Exec(INIT, xs), Push(v, payload, bytes, reliable))
    requires var s := Exec(INIT, xs); var k := s.invocations[v].requestId; In(s, k, Receiving) && Unanswered(s, k)
    ensures var s := Exec(INIT, xs); var k := s.invocations[v].requestId; var c := s.calls[k];
            var t := Next(s, Push(v, payload, bytes, reliable));
      && (Settles(t, k) <==> OnResponses(c.rpc, c.topic) in xs && Depth(payload, true) <= 126)
      && (ReturnsWithoutPush(t, k) <==> OnResponses(c.rpc, c.topic) in xs && Depth(payload, true) <= 126)
  {
    hide Inv, Runs, Exec, Settles, ReturnsWithoutPush, Unanswered, Sized;
    InitInv();
    ExecKeepsInv(INIT, xs);
    var s := Exec(INIT, xs);
    var x := Push(v, payload, bytes, reliable);
    var k := s.invocations[v].requestId;
    StepKeepsInv(s, x);
    StreamIs(s, v);
    Registrations(xs, s.calls[k].rpc, s.calls[k].topic);
    PushAnswers(s, x, k);
    SettlesIff(Next(s, x), k);
  }

  /** Step `i` of a run to `s` is a push by the action of call `k`, of a payload that nests at most 126 deep, and
      `on` registered the response side of the call's topic before it. */
  predicate Landing(s: State, xs: seq<Action>, i: nat, k: nat) {
    && i < |xs| && xs[i].Push? && xs[i].v < |s.invocations| && s.invocations[xs[i].v].requestId == k && k in s.calls
    && OnResponses(s.calls[k].rpc, s.calls[k].topic) in xs[..i] && Depth(xs[i].payload, true) <= 126
  }

  lemma LandingIs(xs: seq<Action>, ys: seq<Action>, s: State, k: nat)
    requires Runs(INIT, xs) && ys != [] && Enabled(Exec(INIT, xs), ys[0]) && Grows(Exec(INIT, xs), s) && Inv(s)
    ensures Lands(Exec(INIT, xs), ys[0], k) <==> Landing(s, xs + ys, |xs|, k)
  {
    hide Inv, Runs, Exec, Sized, Grows;
    var t, x := Exec(INIT, xs), ys[0];
    assert (xs + ys)[..|xs|] == xs && (xs + ys)[|xs|] == x;
    if x.Push? && t.invocations[x.v].requestId == k {
      InitInv();
      ExecKeepsInv(INIT, xs);
      StreamIs(t, x.v);
      KeepsCall(t, s, k);
      Registrations(xs, t.calls[k].rpc, t.calls[k].topic);
    }
    if x.Push? {
      KeepsInvocation(t, s, x.v);
    }
  }

  lemma KeepsInvocation(s: State, t: State, v: nat)
    requires Grows(s, t) && v < |s.invocations|
    ensures v < |t.invocations| && t.invocations[v] == s.invocations[v]
  {
    assert s.invocations == t.invocations[..|s.invocations|];
  }

  lemma {:induction false} LandsInIff(xs: seq<Action>, ys: seq<Action>, k: nat)
    requires Runs(INIT, xs) && Runs(Exec(INIT, xs), ys)
    ensures LandsIn(Exec(INIT, xs), ys, k) <==>
      exists i: nat | i >= |xs| :: Landing(Exec(Exec(INIT, xs), ys), xs + ys, i, k)
    decreases |ys|
  {
    hide Inv, Enabled, Next, Lands, Landing, Grows;
    var s := Exec(INIT, xs);
    var u := Exec(s, ys);
    if ys == [] {
      forall i: nat | i >= |xs| ensures !Landing(u, xs + ys, i, k) {
        LandingIsInside(u, xs + ys, i, k);
      }
    } else {
      InitInv();
      ExecKeepsInv(INIT, xs);
      ExecKeepsInv(s, ys);
      Origins(s, ys, 0, 0);
      LandingIs(xs, ys, u, k);
      RunSnoc(xs, ys[0]);
      var zs := xs + [ys[0]];
      LandsInIff(zs, ys[1..], k);
      assert zs + ys[1..] == xs + ys && Exec(Exec(INIT, zs), ys[1..]) == u;
      if i: nat :| i >= |xs| && Landing(u, xs + ys, i, k) {
        assert i == |xs| || Landing(Exec(Exec(INIT, zs), ys[1..]), zs + ys[1..], i, k);
      }
      if LandsIn(s, ys, k) && !Lands(s, ys[0], k) {
        var i: nat :| i >= |zs| && Landing(Exec(Exec(INIT, zs), ys[1..]), zs + ys[1..], i, k);
        assert Landing(u, xs + ys, i, k);
      }
    }
  }

  lemma LandingIsInside(s: State, xs: seq<Action>, i: nat, k: nat)
    ensures Landing(s, xs, i, k) ==> i < |xs|
  {
  }

  lemma RunSnoc(xs: seq<Action>, x: Action)
    requires Runs(INIT, xs) && Enabled(Exec(INIT, xs), x)
    ensures Runs(INIT, xs + [x]) && Exec(INIT, xs + [x]) == Next(Exec(INIT, xs), x)
  {
    hide Inv, Runs, Exec, Enabled, Next;
    InitInv();
    ExecKeepsInv(INIT, xs);
    assert Leads(INIT, xs, Exec(INIT, xs));
    ExecThen(INIT, xs, Exec(INIT, xs), x);
  }

  /** A whole run, exactly: a call that waits at its end returns by running what is spawned if and only if at some
      step of the run its action pushed a payload that nests at most 126 deep and `on` had registered the
      response side of the call's topic before that step. */
  lemma WaitingReturnsIff(xs: seq<Action>, k: nat)
    requires Runs(INIT, xs) && In(Exec(INIT, xs), k, Receiving)
    ensures Settles(Exec(INIT, xs), k) <==> exists i: nat :: Landing(Exec(INIT, xs), xs, i, k)
    ensures ReturnsWithoutPush(Exec(INIT, xs), k) <==> exists i: nat :: Landing(Exec(INIT, xs), xs, i, k)
  {
    hide Inv, Settles, ReturnsWithoutPush, LandsIn, Landing;
    InitInv();
    ExecKeepsInv(INIT, xs);
    ExecAnswers(INIT, xs, k);
    assert Unanswered(INIT, k);
    SettlesIff(Exec(INIT, xs), k);
    assert Exec(INIT, []) == INIT && [] + xs == xs;
    LandsInIff([], xs, k);
  }

  // ---------------------------------------------------------------- responses that are lost

  /** A call to topic `t` of object 0 that starts its action. */
  const SERVED: seq<Action> := [Begin(1, 0, "t", Null, [], true), Register(1), Produce(1), RunTask(0)]

  lemma Serve(xs: seq<Action>, s: State) returns (t: State)
    requires Leads(INIT, xs, s) && s.calls == map[] && s.tasks == [] && s.invocations == [] && s.channels == map[]
    requires (0, ReqTopic("t")) in s.consumers
    ensures Leads(INIT, xs + SERVED, t) && In(t, 1, Receiving) && Unanswered(t, 1)
    ensures t.invocations == [Invocation(0, 1, ResTopic("t"), Null, [], 0)] && t.consumers == s.consumers
  {
    hide Decode, Encode, Sized, Leads, Consume, Print, Shallow, ReqTopic, ResTopic;
    NestedFacts(0);
    var c := Call(0, "t", Null, [], true, AtMap);
    SmallSized(Request(1, c)) by {
      assert |ReqTopic("t")| == 5 by { TopicSizes(); }
    }
    var ys;
    ys, t := Then(INIT, xs, s, Begin(1, 0, "t", Null, [], true));
    ys, t := Then(INIT, ys, t, Register(1));
    ys, t := Then(INIT, ys, t, Produce(1));
    RequestTask(INIT, ys, t);
    ConsumeDecodes(t, 0) by {
      assert Sized(t.tasks[0].msg);
    }
    NullIsShallow();
    ys, t := Then(INIT, ys, t, RunTask(0));
    assert ys == xs + SERVED;
  }

  lemma TopicSizes()
    ensures |ReqTopic("t")| == 5 && |ResTopic("t")| == 5
  {
  }

  lemma NullIsShallow()
    ensures Shallow(Null)
  {
  }

  /** The one task of the call's request. */
  lemma RequestTask(s: State, xs: seq<Action>, t: State)
    requires Leads(s, xs, t) && |t.tasks| == 1 && t.tasks[0].origin == FromCall(1)
    ensures 1 in t.calls && Sized(t.tasks[0].msg) && t.tasks[0].msg == Request(1, t.calls[1])
    ensures t.tasks[0].consumer == Requests(t.calls[1].rpc, ResTopic(t.calls[1].topic))
  {
    hide Sized, Shallow, CallOk, ConsumerOk, InvocationOk, ResTopic, ReqTopic;
    LeadsInv(s, xs, t);
    assert TaskOk(t, t.tasks[0]);
  }

  lemma {:induction false} EchoingThen(s: State, xs: seq<Action>, t: State, x: Action)
    requires Leads(s, xs, t) && Echoing(s, xs) && Enabled(t, x) && EchoStep(t, x)
    ensures Runs(s, xs + [x]) && Echoing(s, xs + [x])
    decreases |xs|
  {
    hide Inv, Enabled, Next, EchoStep;
    ExecThen(s, xs, t, x);
    var ys := xs + [x];
    if xs == [] {
      assert ys[1..] == [];
    } else {
      assert ys[1..] == xs[1..] + [x];
      EchoingThen(Next(s, xs[0]), xs[1..], t, x);
    }
  }

  lemma {:induction false} PushlessEchoes(s: State, xs: seq<Action>)
    requires Runs(s, xs) && forall x | x in xs :: !x.Push?
    ensures Echoing(s, xs)
    decreases |xs|
  {
    hide Enabled, Next;
    if xs != [] {
      assert xs[0] in xs;
      assert forall x | x in xs[1..] :: x in xs;
      PushlessEchoes(Next(s, xs[0]), xs[1..]);
    }
  }

  /** `on` registers the request topic first. An action that echoes before the response topic is registered too
      loses its response: both topics end up registered, and the caller still waits for good. */
  lemma EarlyResponseIsLost()
    ensures var xs := [OnRequests(0, "t")] + SERVED + [Push(0, Null, [], true)] + [OnResponses(0, "t")];
      && Runs(INIT, xs) && Echoing(INIT, xs) && In(Exec(INIT, xs), 1, Receiving)
      && (0, ReqTopic("t")) in Exec(INIT, xs).consumers && (0, ResTopic("t")) in Exec(INIT, xs).consumers
      && !Settles(Exec(INIT, xs), 1) && !ReturnsWithoutPush(Exec(INIT, xs), 1)
  {
    hide Inv, Leads, Sized, Settles, ReturnsWithoutPush, Unanswered, Runs, Exec, ReqTopic, ResTopic, Print;
    InitInv();
    LeadsNone(INIT);
    var xs, s := Then(INIT, [], INIT, OnRequests(0, "t"));
    assert xs == [OnRequests(0, "t")];
    var t := Serve(xs, s);
    LeadsIs(INIT, xs + SERVED, t);
    PushlessEchoes(INIT, xs + SERVED);
    var x := Push(0, Null, [], true);
    NestedFacts(0);
    SmallSized(RpcMsg(ResTopic("t"), 1, Null, true, [])) by { TopicSizes(); }
    assert Enabled(t, x);
    EchoingThen(INIT, xs + SERVED, t, x);
    var ys, u := Then(INIT, xs + SERVED, t, x);
    TopicsDiffer();
    LeadsInv(INIT, xs + SERVED, t);
    PushAnswers(t, x, 1);
    EchoingThen(INIT, ys, u, OnResponses(0, "t"));
    var zs, w := Then(INIT, ys, u, OnResponses(0, "t"));
    LeadsInv(INIT, ys, u);
    StepAnswers(u, OnResponses(0, "t"), 1);
    LeadsIs(INIT, zs, w);
    LeadsInv(INIT, zs, w);
    SettlesIff(w, 1);
  }

  lemma TopicsDiffer()
    ensures ReqTopic("t") != ResTopic("t")
  {
    assert ReqTopic("t")[2] == 'q' && ResTopic("t")[2] == 's';
  }

  /** A pushed payload that nests 127 deep is lost although its topic has a consumer. */
  lemma DeepResponseIsLost()
    ensures var xs := [OnRequests(0, "t"), OnResponses(0, "t")] + SERVED + [Push(0, Nested(127), [], true)];
      && Runs(INIT, xs) && In(Exec(INIT, xs), 1, Receiving) && (0, ResTopic("t")) in Exec(INIT, xs).consumers
      && !Settles(Exec(INIT, xs), 1) && !ReturnsWithoutPush(Exec(INIT, xs), 1)
  {
    hide Inv, Leads, Sized, Settles, ReturnsWithoutPush, Unanswered, Runs, Exec, ReqTopic, ResTopic, Print, Nested;
    InitInv();
    LeadsNone(INIT);
    var xs, s := Then(INIT, [], INIT, OnRequests(0, "t"));
    xs, s := Then(INIT, xs, s, OnResponses(0, "t"));
    assert xs == [OnRequests(0, "t"), OnResponses(0, "t")];
    var t := Serve(xs, s);
    var x := Push(0, Nested(127), [], true);
    NestedFacts(127);
    SmallSized(RpcMsg(ResTopic("t"), 1, Nested(127), true, [])) by { TopicSizes(); }
    assert Enabled(t, x);
    var ys, u := Then(INIT, xs + SERVED, t, x);
    LeadsInv(INIT, xs + SERVED, t);
    PushAnswers(t, x, 1);
    LeadsIs(INIT, ys, u);
    LeadsInv(INIT, ys, u);
    SettlesIff(u, 1);
  }
}
