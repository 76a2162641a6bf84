/** The foreign-handler side of RPC: every user action runs as a C callback that finds its stream again by a
    32-bit id in a process-wide registry, while other callbacks come and go. */
module Ffi {
  import opened Common
  import opened Json
  import opened RpcWire
  import Reply
  import Rpc
  import RpcTheorems

  /** Where a callback stands: its id is drawn, it is registered and the handler runs, it is unregistered. */
  datatype Pc = Drawn | Live | Gone

  /** One callback, for invocation `v`; its position in the list is the ticket it drew. */
  datatype Callback = Callback(v: nat, pc: Pc)

  datatype State = State(rpc: Rpc.State, registry: map<int, nat>, callbacks: seq<Callback>)

  const INIT: State := State(Rpc.INIT, map[], [])

  const WORD: nat := 0x1_0000_0000
  const HALF: nat := 0x8000_0000

  /** `fetch_add` on an `AtomicI32` that starts at 1 and wraps around. */
  function StreamId(ticket: nat): int {
    (ticket + 1 + HALF) % WORD - HALF
  }

  datatype Action =
    | Engine(x: Rpc.Action)
    | Enter(v: nat)
    | Insert(i: nat)
    | Push(i: nat, payload: Json, bytes: Bytes, reliable: bool)
    | Exit(i: nat)

  predicate Is(s: State, i: nat, pc: Pc) {
    i < |s.callbacks| && s.callbacks[i].pc == pc
  }

  predicate Enabled(s: State, x: Action) {
    match x
    case Engine(y) => !y.Push? && Rpc.Enabled(s.rpc, y)
    case Enter(v) => v < |s.rpc.invocations| && forall c | c in s.callbacks :: c.v != v
    case Insert(i) => Is(s, i, Drawn)
    case Push(i, payload, bytes, reliable) =>
      (Is(s, i, Live) || Is(s, i, Gone)) &&
      (StreamId(i) in s.registry ==> Rpc.Enabled(s.rpc, Rpc.Push(s.registry[StreamId(i)], payload, bytes, reliable)))
    case Exit(i) => Is(s, i, Live)
  }

  function SetPc(s: State, i: nat, pc: Pc): State
    requires i < |s.callbacks|
  {
    s.(callbacks := s.callbacks[i := s.callbacks[i].(pc := pc)])
  }

  function Next(s: State, x: Action): State
    requires Enabled(s, x)
  {
    match x
    case Engine(y) => s.(rpc := Rpc.Next(s.rpc, y))
    case Enter(v) => s.(callbacks := s.callbacks + [Callback(v, Drawn)])
    case Insert(i) => SetPc(s, i, Live).(registry := s.registry[StreamId(i) := s.callbacks[i].v])
    case Push(i, payload, bytes, reliable) =>
      if StreamId(i) !in s.registry then s
      else s.(rpc := Rpc.Next(s.rpc, Rpc.Push(s.registry[StreamId(i)], payload, bytes, reliable)))
    case Exit(i) => SetPc(s, i, Gone).(registry := s.registry - {StreamId(i)})
  }

  predicate Runs(s: State, xs: seq<Action>)
    decreases |xs|
  {
    xs == [] || (Enabled(s, xs[0]) && Runs(Next(s, xs[0]), xs[1..]))
  }

  function Exec(s: State, xs: seq<Action>): State
    requires Runs(s, xs)
    decreases |xs|
  {
    if xs == [] then s else Exec(Next(s, xs[0]), xs[1..])
  }

  // ---------------------------------------------------------------- the registry

  /** The counter starts at 1, counts up one by one, and goes from the largest `i32` to the smallest. */
  lemma IdsInOrder(ticket: nat)
    ensures StreamId(0) == 1
    ensures StreamId(ticket + 1) == if StreamId(ticket) == 2147483647 then -2147483648 else StreamId(ticket) + 1
  {
    var a := ticket + 1 + HALF;
    assert (a + 1) % WORD == if a % WORD == WORD - 1 then 0 else a % WORD + 1 by {
      SameRemainder(a + 1, 0);
      var q := a / WORD;
      AddMultiple(a % WORD + 1, q);
    }
  }

  /** Two tickets share an id exactly when they are a multiple of 2^32 apart. */
  lemma SameIdIff(i: nat, j: nat)
    requires i <= j
    ensures StreamId(i) == StreamId(j) <==> (j - i) % 4294967296 == 0
  {
    SameRemainder(i + 1 + HALF, j - i);
  }

  lemma SameRemainder(a: nat, d: nat)
    ensures (a + d) % WORD == a % WORD <==> d % WORD == 0
  {
    var r, q := d % WORD, d / WORD;
    assert a + d == (a + r) + WORD * q;
    AddMultiple(a + r, q);
    if r < WORD - a % WORD {
      assert (a + r) % WORD == a % WORD + r;
    } else {
      assert (a + r) % WORD == a % WORD + r - WORD;
    }
  }

  lemma AddMultiple(a: nat, q: nat)
    ensures (a + WORD * q) % WORD == a % WORD
  {
  }

  predicate Active(c: Callback) {
    c.pc != Gone
  }

  /** No two callbacks in progress drew tickets 2^32 or more apart. */
  ghost predicate Narrow(s: State) {
    forall i, j | 0 <= i < j < |s.callbacks| && Active(s.callbacks[i]) && Active(s.callbacks[j]) :: j - i < WORD
  }

  /** Before the counter wraps around, no ids can clash. */
  lemma NarrowBeforeWrap(s: State)
    requires |s.callbacks| <= WORD
    ensures Narrow(s)
  {
  }

  /** Every running callback finds its own stream, and nothing else is registered. */
  ghost predicate RegistryOk(s: State) {
    && (forall i: nat | Is(s, i, Live) :: StreamId(i) in s.registry && s.registry[StreamId(i)] == s.callbacks[i].v)
    && (forall id | id in s.registry :: exists i: nat :: Is(s, i, Live) && StreamId(i) == id)
  }

  /** One callback per invocation. */
  ghost predicate CallbacksOk(s: State) {
    && (forall c | c in s.callbacks :: c.v < |s.rpc.invocations|)
    && (forall i, j | 0 <= i < j < |s.callbacks| :: s.callbacks[i].v != s.callbacks[j].v)
    && (forall id | id in s.registry :: s.registry[id] < |s.rpc.invocations|)
  }

  lemma StepKeepsCallbacks(s: State, x: Action)
    requires CallbacksOk(s) && Enabled(s, x)
    ensures CallbacksOk(Next(s, x))
  {
    hide Rpc.Enabled, Rpc.Next;
    match x
    case Engine(y) => Rpc.NextGrows(s.rpc, y);
    case Push(i, payload, bytes, reliable) =>
      if StreamId(i) in s.registry {
        Rpc.NextGrows(s.rpc, Rpc.Push(s.registry[StreamId(i)], payload, bytes, reliable));
      }
    case Insert(i) => assert s.callbacks[i] in s.callbacks;
    case _ =>
  }

  lemma LiveIdsDiffer(s: State, i: nat, j: nat)
    requires Narrow(s) && i != j && i < |s.callbacks| && j < |s.callbacks|
    requires Active(s.callbacks[i]) && Active(s.callbacks[j])
    ensures StreamId(i) != StreamId(j)
  {
    if i < j {
      SameIdIff(i, j);
    } else {
      SameIdIff(j, i);
    }
  }

  lemma StepKeepsRegistry(s: State, x: Action)
    requires RegistryOk(s) && Narrow(s) && Enabled(s, x)
    ensures RegistryOk(Next(s, x))
  {
    hide Rpc.Enabled, Rpc.Next, Narrow, StreamId;
    if x.Insert? || x.Exit? {
      forall j: nat | j < |s.callbacks| && j != x.i && Active(s.callbacks[j]) ensures StreamId(j) != StreamId(x.i) {
        LiveIdsDiffer(s, j, x.i);
      }
    }
  }

  /** A clash redirects the running callback: its id now leads to the other callback's stream. */
  lemma InsertWithClash(s: State, i: nat, j: nat)
    requires CallbacksOk(s) && Is(s, i, Drawn) && Is(s, j, Live) && StreamId(j) == StreamId(i)
    ensures Next(s, Insert(i)).registry[StreamId(j)] == s.callbacks[i].v != s.callbacks[j].v
    ensures !RegistryOk(Next(s, Insert(i)))
  {
    hide StreamId;
  }

  /** The registration of a callback keeps the registry right if and only if no running callback has the same
      id; otherwise that callback's pushes go out on the new callback's stream from then on. */
  lemma InsertIff(s: State, i: nat)
    requires RegistryOk(s) && CallbacksOk(s) && Is(s, i, Drawn)
    ensures RegistryOk(Next(s, Insert(i))) <==> forall j: nat | Is(s, j, Live) :: StreamId(j) != StreamId(i)
  {
    hide StreamId;
    if j: nat :| Is(s, j, Live) && StreamId(j) == StreamId(i) {
      InsertWithClash(s, i, j);
    }
  }

  /** A push by a running callback is a push on the stream of its own invocation. */
  lemma PushIsOwn(s: State, x: Action)
    requires RegistryOk(s) && Enabled(s, x) && x.Push? && Is(s, x.i, Live)
    ensures var own := Rpc.Push(s.callbacks[x.i].v, x.payload, x.bytes, x.reliable);
      Rpc.Enabled(s.rpc, own) && Next(s, x) == s.(rpc := Rpc.Next(s.rpc, own))
  {
    hide Rpc.Enabled, Rpc.Next, StreamId;
  }

  /** A handler that kept its stream beyond its callback finds nothing under the old id. */
  predicate LateOk(s: State, x: Action) {
    x.Push? && Is(s, x.i, Gone) ==> StreamId(x.i) !in s.registry
  }

  /** Before the counter wraps around, a push on a kept stream is dropped. */
  lemma LatePushIsDropped(s: State, x: Action)
    requires RegistryOk(s) && |s.callbacks| <= WORD && Enabled(s, x) && x.Push? && Is(s, x.i, Gone)
    ensures LateOk(s, x) && Next(s, x) == s
  {
    hide StreamId, Rpc.Enabled, Rpc.Next;
    if StreamId(x.i) in s.registry {
      var j: nat :| Is(s, j, Live) && StreamId(j) == StreamId(x.i);
      if j < x.i {
        SameIdIff(j, x.i);
      } else {
        SameIdIff(x.i, j);
      }
    }
  }

  // ---------------------------------------------------------------- all runs

  /** No id can clash in any state of the run. */
  ghost predicate NarrowRun(s: State, xs: seq<Action>)
    requires Runs(s, xs)
    decreases |xs|
  {
    Narrow(s) && (xs == [] || (LateOk(s, xs[0]) && NarrowRun(Next(s, xs[0]), xs[1..])))
  }

  /** A run that draws at most 2^32 ids has no clash. */
  lemma {:induction false} NoClashBeforeWrap(s: State, xs: seq<Action>)
    requires RegistryOk(s) && Runs(s, xs) && |Exec(s, xs).callbacks| <= WORD
    ensures NarrowRun(s, xs) && |s.callbacks| <= |Exec(s, xs).callbacks|
    decreases |xs|
  {
    hide Enabled, Next, Narrow, RegistryOk, LateOk;
    if xs != [] {
      MoreCallbacks(s, xs);
      NarrowBeforeWrap(s);
      StepKeepsRegistry(s, xs[0]);
      NoClashBeforeWrap(Next(s, xs[0]), xs[1..]);
      LateIsFine(s, xs[0]);
    } else {
      NarrowBeforeWrap(s);
    }
  }

  lemma LateIsFine(s: State, x: Action)
    requires RegistryOk(s) && |s.callbacks| <= WORD && Enabled(s, x)
    ensures LateOk(s, x)
  {
    hide RegistryOk, Next, StreamId, Rpc.Enabled;
    if x.Push? && Is(s, x.i, Gone) {
      LatePushIsDropped(s, x);
    }
  }

  lemma {:induction false} MoreCallbacks(s: State, xs: seq<Action>)
    requires Runs(s, xs)
    ensures |s.callbacks| <= |Exec(s, xs).callbacks|
    decreases |xs|
  {
    hide Rpc.Enabled, Rpc.Next, StreamId;
    if xs != [] {
      MoreCallbacks(Next(s, xs[0]), xs[1..]);
    }
  }

  /** Every handler of the run pushes back what it was given, if anything. */
  predicate Echoing(s: State, xs: seq<Action>)
    requires Runs(s, xs)
    decreases |xs|
  {
    xs == [] || (EchoStep(s, xs[0]) && Echoing(Next(s, xs[0]), xs[1..]))
  }

  predicate EchoStep(s: State, x: Action)
    requires Enabled(s, x)
  {
    x.Push? && s.callbacks[x.i].v < |s.rpc.invocations| ==>
      x.payload == s.rpc.invocations[s.callbacks[x.i].v].ctx && x.bytes == s.rpc.invocations[s.callbacks[x.i].v].bytes
  }

  /** The registry stays right along every run without clashes; when no handler runs it is empty. */
  lemma {:induction false} RegistryAlways(s: State, xs: seq<Action>)
    requires RegistryOk(s) && CallbacksOk(s) && Runs(s, xs) && NarrowRun(s, xs)
    ensures RegistryOk(Exec(s, xs)) && CallbacksOk(Exec(s, xs))
    ensures (forall i: nat :: !Is(Exec(s, xs), i, Live)) ==> Exec(s, xs).registry == map[]
    decreases |xs|
  {
    hide Enabled, Next, Narrow, CallbacksOk;
    if xs != [] {
      StepKeepsRegistry(s, xs[0]);
      StepKeepsCallbacks(s, xs[0]);
      RegistryAlways(Next(s, xs[0]), xs[1..]);
    } else if forall i: nat :: !Is(s, i, Live) {
      assert forall id :: id !in s.registry;
    }
  }

  /** A push by a running callback spawns one response exactly when the `res:` topic of the callback's call has a
      consumer, and that response carries the id of the callback's own request, that topic, and what was pushed;
      nothing else in RPC changes. */
  lemma PushAnswersOwnRequest(xs: seq<Action>, x: Action)
    requires Runs(INIT, xs) && NarrowRun(INIT, xs) && Enabled(Exec(INIT, xs), x)
    requires x.Push? && Is(Exec(INIT, xs), x.i, Live)
    ensures var s := Exec(INIT, xs); var s' := Next(s, x); var v := s.callbacks[x.i].v;
      && v < |s.rpc.invocations| && s.rpc.invocations[v].requestId in s.rpc.calls
      && (var k := s.rpc.invocations[v].requestId;
          var m := RpcMsg(Rpc.ResTopic(s.rpc.calls[k].topic), k, x.payload, x.reliable, x.bytes);
          s'.rpc.tasks == s.rpc.tasks +
            if (s.rpc.calls[k].rpc, m.topic) in s.rpc.consumers
            then [Rpc.Task(Rpc.Responses, m, Rpc.FromPush(v), false)]
            else [])
      && s' == s.(rpc := s.rpc.(tasks := s'.rpc.tasks))
  {
    hide Runs, Exec, NarrowRun, Enabled, Next, RegistryOk, Rpc.Inv, Rpc.Enabled, Rpc.ResTopic;
    var s := Exec(INIT, xs);
    assert RegistryOk(INIT) && CallbacksOk(INIT) by { InitRegistry(); }
    RegistryAlways(INIT, xs);
    PushIsOwn(s, x);
    var ys := Refines(INIT, xs);
    Rpc.InitInv();
    Rpc.ExecKeepsInv(Rpc.INIT, ys);
    assert s.callbacks[x.i] in s.callbacks;
    OwnInvocation(s.rpc, s.callbacks[x.i].v);
    ResponseConsumer(s.rpc, s.rpc.invocations[s.callbacks[x.i].v]);
  }

  /** What is registered under a response topic is a response consumer. */
  lemma ResponseConsumer(s: Rpc.State, v: Rpc.Invocation)
    requires Rpc.Inv(s) && Rpc.InvocationOk(s, v)
    ensures (v.rpc, v.resTopic) in s.consumers ==> s.consumers[(v.rpc, v.resTopic)] == Rpc.Responses
  {
    hide Rpc.TaskOk, Rpc.CallOk;
    if (v.rpc, v.resTopic) in s.consumers {
      assert Rpc.ConsumerOk((v.rpc, v.resTopic), s.consumers[(v.rpc, v.resTopic)]);
      assert v.resTopic[..4] == "res:" && "req:"[2] != "res:"[2];
    }
  }

  lemma InitRegistry()
    ensures RegistryOk(INIT) && CallbacksOk(INIT)
  {
  }

  lemma OwnInvocation(s: Rpc.State, v: nat)
    requires Rpc.Inv(s) && v < |s.invocations|
    ensures Rpc.InvocationOk(s, s.invocations[v])
  {
  }

  /** The RPC step a foreign step stands for, if any. */
  function Projected(s: State, x: Action): seq<Rpc.Action> {
    match x
    case Engine(y) => [y]
    case Push(i, payload, bytes, reliable) =>
      if StreamId(i) in s.registry then [Rpc.Push(s.registry[StreamId(i)], payload, bytes, reliable)] else []
    case _ => []
  }

  /** Every run with foreign handlers is a run of RPC; an echoing one without id clashes is an echoing one. */
  lemma {:induction false} Refines(s: State, xs: seq<Action>) returns (ys: seq<Rpc.Action>)
    requires Runs(s, xs)
    ensures Rpc.Runs(s.rpc, ys) && Rpc.Exec(s.rpc, ys) == Exec(s, xs).rpc
    ensures RegistryOk(s) && CallbacksOk(s) && NarrowRun(s, xs) && Echoing(s, xs) ==> RpcTheorems.Echoing(s.rpc, ys)
    decreases |xs|
  {
    hide Enabled, Next, RegistryOk, CallbacksOk, Narrow, EchoStep, Rpc.Enabled, Rpc.Next, RpcTheorems.EchoStep;
    if xs == [] {
      ys := [];
    } else {
      var zs := Refines(Next(s, xs[0]), xs[1..]);
      ys := Projected(s, xs[0]) + zs;
      ProjectedStep(s, xs[0]);
      if RegistryOk(s) && CallbacksOk(s) && NarrowRun(s, xs) && Echoing(s, xs) {
        StepKeepsRegistry(s, xs[0]);
        StepKeepsCallbacks(s, xs[0]);
        ProjectedEcho(s, xs[0]);
      }
      if Projected(s, xs[0]) == [] {
        assert ys == zs;
      } else {
        assert ys[1..] == zs && ys[0] == Projected(s, xs[0])[0];
      }
    }
  }

  lemma ProjectedStep(s: State, x: Action)
    requires Enabled(s, x)
    ensures var p := Projected(s, x);
      && |p| <= 1
      && (p == [] ==> Next(s, x).rpc == s.rpc)
      && (p != [] ==> Rpc.Enabled(s.rpc, p[0]) && Rpc.Next(s.rpc, p[0]) == Next(s, x).rpc)
  {
    hide Rpc.Enabled, Rpc.Next;
  }

  lemma ProjectedEcho(s: State, x: Action)
    requires Enabled(s, x) && RegistryOk(s) && CallbacksOk(s) && EchoStep(s, x) && LateOk(s, x)
    ensures var p := Projected(s, x);
      p != [] && Rpc.Enabled(s.rpc, p[0]) ==> RpcTheorems.EchoStep(s.rpc, p[0])
  {
    hide Rpc.Enabled, Rpc.Next, StreamId;
    if x.Push? {
      assert s.callbacks[x.i] in s.callbacks;
    }
  }

  /** Echo from C++ to C++: if the handlers push back what they were given and no stream ids clash, every send
      that returns hands its caller exactly the payload and bytes it sent, or an exception: a null reply for
      bytes with a zero, an out-of-range length beyond a C++ `int`. */
  lemma CppEcho(xs: seq<Action>, k: nat)
    requires Runs(INIT, xs) && NarrowRun(INIT, xs) && Echoing(INIT, xs)
    requires k in Exec(INIT, xs).rpc.calls && Exec(INIT, xs).rpc.calls[k].pc.Done?
    requires |ToBytes(Exec(INIT, xs).rpc.calls[k].payload)| <= USIZE_MAX
    requires |Exec(INIT, xs).rpc.calls[k].bytes| <= USIZE_MAX
    ensures var c := Exec(INIT, xs).rpc.calls[k];
      Reply.Deserialize(Reply.ReplyFrame(c.pc.ctx, c.pc.bytes)) ==
        if 0 in c.bytes then Reply.NullPointer
        else if |ToBytes(c.payload)| <= Reply.INT_MAX && |c.bytes| <= Reply.INT_MAX then Reply.Pair(c.payload, c.bytes)
        else Reply.OutOfRange
  {
    hide Runs, NarrowRun, Echoing, Exec, ToBytes, Reply.Deserialize, Reply.ReplyFrame;
    var ys := Refines(INIT, xs);
    assert RegistryOk(INIT) && CallbacksOk(INIT);
    RpcTheorems.Echo(ys, k);
    var c := Exec(INIT, xs).rpc.calls[k];
    DepthWithoutEmpties(c.payload);
    Reply.ReplyRoundTrip(c.payload, c.bytes);
  }
}
