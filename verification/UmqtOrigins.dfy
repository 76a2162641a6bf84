/** Where everything a network shows comes from: each call, server, handler and datagram goes back to an
    `add_server`, `on` or `send` of the run. */
module UmqtOrigins {
  import opened Common
  import opened Decimal
  import opened Headers
  import opened UmqtWire
  import opened UmqtNode
  import opened UmqtSystem
  import opened UmqtInvariant
  import opened UmqtHistory
  import opened UmqtSafety

  /** The addresses process `a` registered for the topic, in order. */
  function Registered(xs: seq<Action>, a: Addr, topic: string): seq<Addr> {
    if xs == [] then []
    else
      (match xs[0]
       case Run(b, DoAddServer(t, addr)) => if b == a && t == topic then [addr] else []
       case _ => []) + Registered(xs[1..], a, topic)
  }

  function Known(n: Node, topic: string): seq<Addr> {
    if topic in n.servers then n.servers[topic] else []
  }

  lemma DoRegisters(self: Addr, n: Node, act: Act, topic: string)
    requires CanAct(n, act)
    ensures var n' := Do(self, n, act).0;
      && Known(n', topic) == Known(n, topic) + (if act.DoAddServer? && act.topic == topic then [act.addr] else [])
      && (topic in n'.consumers <==> topic in n.consumers || act == DoOn(topic))
  {
    hide SizedSend, InviteMsg, Emit, DataMsg;
  }

  lemma StepRegisters(s: State, x: Action, a: Addr, topic: string)
    requires Enabled(s, x) && a in s.nodes
    ensures a in Next(s, x).nodes
    ensures Known(Next(s, x).nodes[a], topic) == Known(s.nodes[a], topic) + Registered([x], a, topic)
    ensures topic in Next(s, x).nodes[a].consumers <==> topic in s.nodes[a].consumers || x == Run(a, DoOn(topic))
  {
    hide CanAct, Do, Accept, Known, Receive;
    assert Registered([x][1..], a, topic) == [];
    match x
    case Run(b, act) => if a == b { DoRegisters(a, s.nodes[a], act, topic); }
    case Deliver(i) =>
      var p := s.net[i];
      var r := Receive(s.nodes[p.dst].block, p.msg);
      AcceptFacts(p.dst, s.nodes[p.dst], p.src, r, 0);
      KnownIs(s.nodes[p.dst], Accept(p.dst, s.nodes[p.dst], p.src, r).0, topic);
  }

  lemma KnownIs(n: Node, n': Node, topic: string)
    requires n'.servers == n.servers
    ensures Known(n', topic) == Known(n, topic)
  {
  }

  lemma RegisteredCons(xs: seq<Action>, a: Addr, topic: string)
    requires xs != []
    ensures Registered(xs, a, topic) == Registered([xs[0]], a, topic) + Registered(xs[1..], a, topic)
  {
    assert Registered([xs[0]][1..], a, topic) == [];
  }

  /** After any run a process knows exactly the servers it registered, per topic and in order, and has a
      handler for exactly the topics it registered one for. */
  lemma {:induction false} Registrations(s: State, xs: seq<Action>, a: Addr, topic: string)
    requires Runs(s, xs) && a in s.nodes
    ensures a in Exec(s, xs).nodes
    ensures Known(Exec(s, xs).nodes[a], topic) == Known(s.nodes[a], topic) + Registered(xs, a, topic)
    ensures topic in Exec(s, xs).nodes[a].consumers <==> topic in s.nodes[a].consumers || Run(a, DoOn(topic)) in xs
    decreases |xs|
  {
    hide Enabled, Next, Known;
    if xs != [] {
      StepRegisters(s, xs[0], a, topic);
      Registrations(Next(s, xs[0]), xs[1..], a, topic);
      RegisteredCons(xs, a, topic);
      assert xs == [xs[0]] + xs[1..];
    }
  }

  lemma {:induction false} RegisteredIn(xs: seq<Action>, a: Addr, topic: string, addr: Addr)
    requires addr in Registered(xs, a, topic)
    ensures Run(a, DoAddServer(topic, addr)) in xs
  {
    if addr in Registered(xs[1..], a, topic) {
      RegisteredIn(xs[1..], a, topic, addr);
    }
  }

  // ---------------------------------------------------------------- calls

  /** `send` read the servers the topic had at that moment; later ones are only appended. */
  predicate ReadOk(n: Node, k: nat) {
    k in n.calls ==> n.calls[k].servers <= Known(n, n.calls[k].topic)
  }

  lemma DoKeepsRead(self: Addr, n: Node, act: Act, k: nat)
    requires CanAct(n, act) && ReadOk(n, k)
    ensures ReadOk(Do(self, n, act).0, k)
  {
    hide SizedSend, InviteMsg, Emit, DataMsg;
  }

  /** The request that opened call `k`, with what it was given. */
  predicate Begun(s: State, xs: seq<Action>, a: Addr, k: nat) {
    a in s.nodes && k in s.nodes[a].calls &&
    var c := s.nodes[a].calls[k];
    Run(a, DoBegin(k, c.topic, c.bytes, c.reliable)) in xs
  }

  lemma DoBegins(self: Addr, n: Node, act: Act, k: nat)
    requires CanAct(n, act) && k !in n.calls && k in Do(self, n, act).0.calls
    ensures var c := Do(self, n, act).0.calls[k]; act == DoBegin(k, c.topic, c.bytes, c.reliable)
  {
    hide SizedSend, InviteMsg, Emit, DataMsg;
  }

  lemma StepBegins(s: State, x: Action, a: Addr, k: nat)
    requires Enabled(s, x) && a in s.nodes && ReadOk(s.nodes[a], k)
    ensures a in Next(s, x).nodes && ReadOk(Next(s, x).nodes[a], k)
    ensures k in Next(s, x).nodes[a].calls && k !in s.nodes[a].calls ==>
      var c := Next(s, x).nodes[a].calls[k]; x == Run(a, DoBegin(k, c.topic, c.bytes, c.reliable))
  {
    hide CanAct, Do, Accept, Receive;
    match x
    case Run(b, act) =>
      if a == b {
        DoKeepsRead(a, s.nodes[a], act, k);
        if k !in s.nodes[a].calls && k in Do(a, s.nodes[a], act).0.calls {
          DoBegins(a, s.nodes[a], act, k);
        }
      }
    case Deliver(i) =>
      AcceptFacts(s.net[i].dst, s.nodes[s.net[i].dst], s.net[i].src,
                  Receive(s.nodes[s.net[i].dst].block, s.net[i].msg), k);
  }

  /** Every call was opened by a `send` of the run with the call's own arguments, and uses servers that the
      process had registered for its topic. */
  lemma {:induction false} CallsBegun(s: State, xs: seq<Action>, a: Addr, k: nat)
    requires Inv(s) && Runs(s, xs) && a in s.nodes && ReadOk(s.nodes[a], k)
    ensures a in Exec(s, xs).nodes && ReadOk(Exec(s, xs).nodes[a], k)
    ensures k in Exec(s, xs).nodes[a].calls && k !in s.nodes[a].calls ==> Begun(Exec(s, xs), xs, a, k)
    decreases |xs|
  {
    hide Inv, Enabled, Next, ReadOk, Grows;
    if xs != [] {
      var t := Next(s, xs[0]);
      StepKeepsInv(s, xs[0]);
      StepBegins(s, xs[0], a, k);
      CallsBegun(t, xs[1..], a, k);
      if k in t.nodes[a].calls {
        ExecKeepsInv(t, xs[1..]);
        CallStays(t, Exec(s, xs), a, k);
      }
      assert xs == [xs[0]] + xs[1..];
    }
  }

  lemma CallStays(s: State, t: State, a: Addr, k: nat)
    requires Grows(s, t) && a in s.nodes && k in s.nodes[a].calls
    ensures a in t.nodes && k in t.nodes[a].calls
    ensures t.nodes[a].calls[k] == s.nodes[a].calls[k].(pc := t.nodes[a].calls[k].pc)
  {
    assert NodeGrows(s.nodes[a], t.nodes[a]);
    assert CallGrows(s.nodes[a], t.nodes[a], k);
  }

  // ---------------------------------------------------------------- from datagram to caller

  /** No datagram is ever out of nothing: it belongs to one `send` of the run, whose id, topic and flag it
      carries, data carries exactly the bytes given to that `send`, and the process at the other end was
      added as a server of that topic by that process during the run. */
  lemma DatagramOrigin(s0: State, xs: seq<Action>, p: Packet) returns (k: nat, bytes: Bytes)
    requires Init(s0) && Runs(s0, xs) && p in Exec(s0, xs).net
    ensures p.msg.id == Show(k) && Run(ClientOf(p), DoBegin(k, p.msg.topic, bytes, p.msg.reliable)) in xs
    ensures p.msg.kind == Data ==> p.msg.bytes == bytes
    ensures Run(ClientOf(p), DoAddServer(p.msg.topic, PeerOf(p))) in xs
  {
    hide Inv, Runs, Exec, Show, IdOf;
    var s := Exec(s0, xs);
    assert Reachable(s);
    InitInv(s0);
    ExecKeepsInv(s0, xs);
    DatagramBelongs(s, p);
    k := IdOf(p.msg.id);
    var a := ClientOf(p);
    NodesStay(s0, s, a);
    CallsBegun(s0, xs, a, k);
    bytes := s.nodes[a].calls[k].bytes;
    Registrations(s0, xs, a, p.msg.topic);
    assert PeerOf(p) in Registered(xs, a, p.msg.topic);
    RegisteredIn(xs, a, p.msg.topic, PeerOf(p));
    if p.msg.kind == Data {
      SingleWinner(s, p, p);
    }
  }

  lemma NodesStay(s: State, t: State, a: Addr)
    requires Grows(s, t)
    ensures a in s.nodes <==> a in t.nodes
  {
  }

  /** From handler back to caller, misread datagrams included: a handler that ran, ran at a process that
      registered it for the topic it was given, on what that process's buffer made of the data of one `send` of
      the run, at a process that had added this one as a server of that data's topic. */
  lemma HandlerOrigin(s0: State, xs: seq<Action>, b: Addr, from: Addr, m: Msg) returns (k: nat, data: Msg)
    requires Init(s0) && Runs(s0, xs) && b in Exec(s0, xs).nodes && (from, m) in Exec(s0, xs).nodes[b].handled
    ensures Run(b, DoOn(m.topic)) in xs
    ensures data.id == Show(k) && Run(from, DoBegin(k, data.topic, data.bytes, data.reliable)) in xs
    ensures Run(from, DoAddServer(data.topic, b)) in xs
    ensures MadeOf(Exec(s0, xs).nodes[b].block, m, data)
  {
    hide Inv, Runs, Exec, Show, IdOf, MadeOf, History, Once, Grows, ReadFrom, Known;
    var s := Exec(s0, xs);
    assert Reachable(s);
    InitInv(s0);
    ExecKeepsInv(s0, xs);
    NodesStay(s0, s, b);
    Registrations(s0, xs, b, m.topic);
    ReachableHistory(s);
    HandledIsReceived(s, b, from, m);
    var p := ReceiptOf(s, b, from, m);
    ReadFromIs(s.nodes[b].block, b, (from, m), p);
    ReceivedIsMadeOf(s, b, p, m);
    data := p.msg;
    var bytes;
    k, bytes := DatagramOrigin(s0, xs, p);
  }
}
