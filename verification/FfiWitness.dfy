/** A run in which the stream ids clash: one callback stays while 2^32 others are entered. */
module FfiWitness {
  import opened Common
  import opened Decimal
  import opened Headers
  import opened Json
  import opened RpcWire
  import opened Ffi
  import Rpc
  import RpcTheorems

  ghost predicate Leads(xs: seq<Action>, s: State) {
    Runs(INIT, xs) && Exec(INIT, xs) == s
  }

  lemma Then(xs: seq<Action>, s: State, x: Action) returns (ys: seq<Action>, t: State)
    requires Leads(xs, s) && Enabled(s, x)
    ensures ys == xs + [x] && t == Next(s, x) && Leads(ys, t)
  {
    hide Enabled, Next;
    ys, t := xs + [x], Next(s, x);
    ExecThen(INIT, xs, x);
  }

  lemma {:induction false} ExecThen(s: State, xs: seq<Action>, x: Action)
    requires Runs(s, xs) && Enabled(Exec(s, xs), x)
    ensures Runs(s, xs + [x]) && Exec(s, xs + [x]) == Next(Exec(s, xs), x)
    decreases |xs|
  {
    hide Enabled, Next;
    var ys := xs + [x];
    if xs == [] {
      assert ys[1..] == [] && Runs(Next(s, x), []) && Exec(Next(s, x), []) == Next(s, x);
    } else {
      ExecThen(Next(s, xs[0]), xs[1..], x);
      assert ys[1..] == xs[1..] + [x];
    }
  }

  // ---------------------------------------------------------------- one served call after another

  /** A call on topic `t` of object 0. */
  const CALL: Rpc.Call := Rpc.Call(0, "t", Null, [], true, Rpc.AtMap)

  /** The calls 0 to `n - 1` have started their actions. */
  ghost predicate Started(r: Rpc.State, n: nat) {
    && |r.invocations| == n && |r.tasks| == n
    && (forall k: nat | k >= n :: k !in r.calls)
    && (forall i: nat | i < n :: r.invocations[i].requestId == i && r.invocations[i].rpc == 0)
    && (forall i: nat | i < n :: r.invocations[i].resTopic == Rpc.ResTopic("t"))
    && (0, Rpc.ReqTopic("t")) in r.consumers && (0, Rpc.ResTopic("t")) in r.consumers
    && r.consumers[(0, Rpc.ReqTopic("t"))] == Rpc.Requests(0, Rpc.ResTopic("t"))
    && r.consumers[(0, Rpc.ResTopic("t"))] == Rpc.Responses
  }

  /** Each has its callback; the first one runs, the others have drawn their ids. */
  ghost predicate Entered(s: State, n: nat) {
    && Started(s.rpc, n) && |s.callbacks| == n
    && (forall i: nat | i < n :: s.callbacks[i] == Callback(i, if i == 0 then Live else Drawn))
    && s.registry == if n == 0 then map[] else map[StreamId(0) := 0]
  }

  lemma CallIsSized(n: nat)
    requires n <= WORD
    ensures Sized(Rpc.Request(n, CALL)) && Sized(RpcMsg(Rpc.ResTopic("t"), n, Null, true, []))
  {
    hide Sized, Print;
    ShowUsize(n);
    RpcTheorems.NestedFacts(0);
    SmallSized(Rpc.Request(n, CALL));
    SmallSized(RpcMsg(Rpc.ResTopic("t"), n, Null, true, []));
  }

  /** The four steps of one more call. */
  lemma StartNext(xs: seq<Action>, s: State, n: nat) returns (ys: seq<Action>, t: State)
    requires Leads(xs, s) && Started(s.rpc, n) && n <= WORD
    ensures Leads(ys, t) && Started(t.rpc, n + 1) && t == s.(rpc := t.rpc)
  {
    hide Leads, Decode, Encode, Sized, Rpc.Consume, Rpc.ReqTopic, Rpc.ResTopic, Shallow, Show;
    CallIsSized(n);
    ys, t := Then(xs, s, Engine(Rpc.Begin(n, 0, "t", Null, [], true)));
    ys, t := Then(ys, t, Engine(Rpc.Register(n)));
    ys, t := Then(ys, t, Engine(Rpc.Produce(n)));
    assert t.rpc.tasks[n].msg == Rpc.Request(n, CALL);
    Rpc.ConsumeDecodes(t.rpc, n);
    NullIsShallow();
    ys, t := Then(ys, t, Engine(Rpc.RunTask(n)));
  }

  lemma NullIsShallow()
    ensures Shallow(Null)
  {
  }

  lemma EnterNext(xs: seq<Action>, s: State, n: nat) returns (ys: seq<Action>, t: State)
    requires Leads(xs, s) && Entered(s, n) && n <= WORD
    ensures Leads(ys, t) && Entered(t, n + 1)
  {
    hide Leads, Started, StreamId, Rpc.Enabled, Rpc.Next;
    ys, t := StartNext(xs, s, n);
    assert |t.rpc.invocations| == n + 1 by { StartedCount(t.rpc, n + 1); }
    ys, t := Then(ys, t, Enter(n));
    if n == 0 {
      ys, t := Then(ys, t, Insert(0));
    }
  }

  lemma StartedCount(r: Rpc.State, n: nat)
    requires Started(r, n)
    ensures |r.invocations| == n
  {
  }

  lemma {:induction false} EnterMany(n: nat) returns (xs: seq<Action>, s: State)
    requires n <= WORD + 1
    ensures Leads(xs, s) && Entered(s, n)
  {
    hide Leads, Sized;
    if n == 0 {
      assert Leads([], INIT) by { NoSteps(); }
      xs, s := Then([], INIT, Engine(Rpc.OnRequests(0, "t")));
      xs, s := Then(xs, s, Engine(Rpc.OnResponses(0, "t")));
      assert Rpc.ReqTopic("t")[2] != Rpc.ResTopic("t")[2];
    } else {
      hide Entered;
      xs, s := EnterMany(n - 1);
      xs, s := EnterNext(xs, s, n - 1);
    }
  }

  lemma NoSteps()
    ensures Leads([], INIT)
  {
  }

  lemma EnteredIsOk(s: State, n: nat)
    requires Entered(s, n)
    ensures RegistryOk(s) && CallbacksOk(s)
  {
    hide StreamId;
    if n > 0 {
      assert Is(s, 0, Live);
    }
  }

  // ---------------------------------------------------------------- the clash

  /** There is a run of 2^32 + 1 callbacks, the first of which still runs and finds its own stream, such that
      registering the last one redirects it: its next push is answered to the last call and not to its own. */
  lemma ClashIsReachable() returns (xs: seq<Action>)
    ensures Runs(INIT, xs) && Runs(INIT, xs + [Insert(WORD)])
    ensures RegistryOk(Exec(INIT, xs)) && !RegistryOk(Exec(INIT, xs + [Insert(WORD)]))
    ensures var s := Exec(INIT, xs + [Insert(WORD)]); var x := Push(0, Null, [], true);
      && Is(s, 0, Live) && s.callbacks[0].v == 0 && |s.rpc.invocations| == WORD + 1
      && s.rpc.invocations[0].requestId == 0 && s.rpc.invocations[WORD].requestId == WORD
      && Enabled(s, x)
      && Next(s, x).rpc.tasks == s.rpc.tasks +
           [Rpc.Task(Rpc.Responses, RpcMsg(Rpc.ResTopic("t"), WORD, Null, true, []), Rpc.FromPush(WORD), false)]
  {
    hide Leads, Sized, StreamId, RegistryOk, CallbacksOk, Rpc.ReqTopic, Rpc.ResTopic, Runs, Exec;
    var s, ys, t;
    xs, s := EnterMany(WORD + 1);
    EnteredIsOk(s, WORD + 1);
    SameIdIff(0, WORD);
    ys, t := Then(xs, s, Insert(WORD));
    InsertWithClash(s, WORD, 0);
    CallIsSized(WORD);
    LeadsIs(xs, s);
    LeadsIs(ys, t);
  }

  lemma LeadsIs(xs: seq<Action>, s: State)
    requires Leads(xs, s)
    ensures Runs(INIT, xs) && Exec(INIT, xs) == s
  {
  }
}
