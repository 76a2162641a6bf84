/** What `RPC::on` leaves registered: both consumers of every topic, for good, and nothing else. */
module RpcRegistrations {
  import opened RpcWire
  import opened Rpc

  lemma Prefixes(topic: string, other: string)
    ensures ("req:" + topic)[4..] == topic && ("res:" + topic)[4..] == topic
    ensures "req:" + topic == "req:" + other || "res:" + topic == "res:" + other <==> topic == other
    ensures "req:" + topic != "res:" + other
  {
    assert ("req:" + topic)[4..] == topic && ("res:" + topic)[4..] == topic;
    assert ("req:" + other)[4..] == other && ("res:" + other)[4..] == other;
    assert ("req:" + topic)[2] == 'q' && ("res:" + other)[2] == 's';
  }

  lemma StepRegisters(s: State, x: Action, rpc: Instance, topic: string)
    requires Enabled(s, x)
    ensures (rpc, "req:" + topic) in Next(s, x).consumers <==>
      (rpc, "req:" + topic) in s.consumers || x == OnRequests(rpc, topic)
    ensures (rpc, "res:" + topic) in Next(s, x).consumers <==>
      (rpc, "res:" + topic) in s.consumers || x == OnResponses(rpc, topic)
  {
    hide Decode, Encode, Sized;
    if x.OnRequests? || x.OnResponses? {
      Prefixes(topic, x.topic);
      Prefixes(x.topic, topic);
    }
  }

  lemma {:induction false} ExecRegisters(s: State, xs: seq<Action>, rpc: Instance, topic: string)
    requires Runs(s, xs)
    ensures (rpc, "req:" + topic) in Exec(s, xs).consumers <==>
      (rpc, "req:" + topic) in s.consumers || OnRequests(rpc, topic) in xs
    ensures (rpc, "res:" + topic) in Exec(s, xs).consumers <==>
      (rpc, "res:" + topic) in s.consumers || OnResponses(rpc, topic) in xs
    decreases |xs|
  {
    hide Enabled, Next;
    if xs != [] {
      StepRegisters(s, xs[0], rpc, topic);
      ExecRegisters(Next(s, xs[0]), xs[1..], rpc, topic);
      assert xs == [xs[0]] + xs[1..];
    }
  }

  /** After any run an object has a request consumer for exactly the topics its `on` registered one for, which
      answers under the `res:` topic of the same name, and a response consumer for exactly the topics its `on`
      registered one for; a later `on` for another topic or another object takes nothing away. */
  lemma Registrations(xs: seq<Action>, rpc: Instance, topic: string)
    requires Runs(INIT, xs)
    ensures var table := Exec(INIT, xs).consumers;
      && ((rpc, "req:" + topic) in table <==> OnRequests(rpc, topic) in xs)
      && ((rpc, "req:" + topic) in table ==> table[(rpc, "req:" + topic)] == Requests(rpc, "res:" + topic))
      && ((rpc, "res:" + topic) in table <==> OnResponses(rpc, topic) in xs)
      && ((rpc, "res:" + topic) in table ==> table[(rpc, "res:" + topic)] == Responses)
  {
    hide Inv, Runs, Exec;
    ExecRegisters(INIT, xs, rpc, topic);
    InitInv();
    ExecKeepsInv(INIT, xs);
    EntriesAre(Exec(INIT, xs), rpc, topic);
  }

  lemma EntriesAre(s: State, rpc: Instance, topic: string)
    requires Inv(s)
    ensures (rpc, "req:" + topic) in s.consumers ==>
      s.consumers[(rpc, "req:" + topic)] == Requests(rpc, "res:" + topic)
    ensures (rpc, "res:" + topic) in s.consumers ==> s.consumers[(rpc, "res:" + topic)] == Responses
  {
    hide InvocationOk, TaskOk, CallOk, OnceEach;
    Prefixes(topic, topic);
    var req, res := "req:" + topic, "res:" + topic;
    assert req[..4] == "req:" && res[..4] == "res:" && "req:"[2] != "res:"[2];
    assert (rpc, req) in s.consumers ==> ConsumerOk((rpc, req), s.consumers[(rpc, req)]);
    assert (rpc, res) in s.consumers ==> ConsumerOk((rpc, res), s.consumers[(rpc, res)]);
  }

  /** Every entry of the table is one of those. */
  lemma NothingElse(xs: seq<Action>, rpc: Instance, name: string)
    requires Runs(INIT, xs) && (rpc, name) in Exec(INIT, xs).consumers
    ensures |name| >= 4
    ensures (name == "req:" + name[4..] && OnRequests(rpc, name[4..]) in xs) ||
            (name == "res:" + name[4..] && OnResponses(rpc, name[4..]) in xs)
  {
    hide Inv, Runs, Exec;
    InitInv();
    ExecKeepsInv(INIT, xs);
    NameIs(Exec(INIT, xs), rpc, name);
    ExecRegisters(INIT, xs, rpc, name[4..]);
  }

  lemma NameIs(s: State, rpc: Instance, name: string)
    requires Inv(s) && (rpc, name) in s.consumers
    ensures |name| >= 4 && (name == "req:" + name[4..] || name == "res:" + name[4..])
  {
    hide InvocationOk, TaskOk, CallOk, OnceEach;
    assert ConsumerOk((rpc, name), s.consumers[(rpc, name)]);
    assert name == name[..4] + name[4..];
  }
}
