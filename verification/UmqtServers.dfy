/** Which servers a `send` reads, and that each of them can win it: from the `add_server` and `send` calls of a
    run to the receipt of the message. */
module UmqtServers {
  import opened Common
  import opened Decimal
  import opened Headers
  import opened UmqtWire
  import opened UmqtNode
  import opened UmqtClient
  import opened UmqtSystem
  import opened UmqtInvariant
  import opened UmqtHistory
  import opened UmqtSafety
  import opened UmqtHandling
  import opened UmqtOrigins
  import opened UmqtSchedules
  import opened UmqtLiveness
  import opened UmqtWitness

  lemma {:induction false} RunsSplit(s: State, xs: seq<Action>, ys: seq<Action>)
    requires Runs(s, xs + ys)
    ensures Runs(s, xs) && Runs(Exec(s, xs), ys) && Exec(s, xs + ys) == Exec(Exec(s, xs), ys)
    decreases |xs|
  {
    hide Enabled, Next;
    if xs == [] {
      assert xs + ys == ys;
    } else {
      assert (xs + ys)[1..] == xs[1..] + ys;
      RunsSplit(Next(s, xs[0]), xs[1..], ys);
    }
  }

  // ---------------------------------------------------------------- the servers of a call

  /** A run up to and with the `send` that opens call `k`. */
  function Opening(xs: seq<Action>, a: Addr, k: nat, topic: string, bytes: Bytes, reliable: bool): seq<Action> {
    xs + [Run(a, DoBegin(k, topic, bytes, reliable))]
  }

  /** What the new call is. */
  lemma Opened(s0: State, xs: seq<Action>, a: Addr, k: nat, topic: string, bytes: Bytes, reliable: bool)
    requires Init(s0) && Runs(s0, Opening(xs, a, k, topic, bytes, reliable))
    ensures var s := Exec(s0, Opening(xs, a, k, topic, bytes, reliable));
      && Inv(s) && a in s.nodes && k in s.nodes[a].calls && Chosen(s.nodes[a], k).None?
      && s.nodes[a].calls[k] == Call(topic, bytes, reliable, Registered(xs, a, topic), AtJobs)
  {
    hide Inv, SizedSend, Runs, Exec, Chosen, Registered, Grows;
    var x := Run(a, DoBegin(k, topic, bytes, reliable));
    RunsSplit(s0, xs, [x]);
    var s := Exec(s0, xs);
    FirstStep(s, x);
    InitInv(s0);
    ExecKeepsInv(s0, xs);
    NodesStay(s0, s, a);
    Registrations(s0, xs, a, topic);
    StepKeepsInv(s, x);
    NewCallIsOpen(s, a, k);
    SameChosen(s.nodes[a], Next(s, x).nodes[a], k);
  }

  lemma FirstStep(s: State, x: Action)
    requires Runs(s, [x])
    ensures Enabled(s, x) && Exec(s, [x]) == Next(s, x)
  {
    hide Enabled, Next;
    assert [x][1..] == [];
    assert Exec(Next(s, x), []) == Next(s, x);
  }

  lemma SameChosen(n: Node, n': Node, k: nat)
    requires n'.tasks == n.tasks && n'.acceptor == n.acceptor
    ensures Chosen(n', k) == Chosen(n, k)
  {
  }

  /** A `send` reads all servers that its process has added for the topic so far, in order, and keeps to them
      and to its own arguments whatever happens next. */
  lemma ServersRead(s0: State, xs: seq<Action>, a: Addr, k: nat, topic: string, bytes: Bytes, reliable: bool,
                    ys: seq<Action>)
    requires Init(s0) && Runs(s0, Opening(xs, a, k, topic, bytes, reliable) + ys)
    ensures var s := Exec(s0, Opening(xs, a, k, topic, bytes, reliable) + ys);
      && a in s.nodes && k in s.nodes[a].calls
      && (var c := s.nodes[a].calls[k];
          c.servers == Registered(xs, a, topic) && c.topic == topic && c.bytes == bytes && c.reliable == reliable)
  {
    hide Inv, Runs, Exec, Grows, Chosen, Opening;
    var zs := Opening(xs, a, k, topic, bytes, reliable);
    RunsSplit(s0, zs, ys);
    Opened(s0, xs, a, k, topic, bytes, reliable);
    ExecKeepsInv(Exec(s0, zs), ys);
    CallStays(Exec(s0, zs), Exec(s0, zs + ys), a, k);
  }

  /** Every `add_server` of the topic counts. */
  lemma {:induction false} RegisteredIff(xs: seq<Action>, a: Addr, topic: string, addr: Addr)
    ensures addr in Registered(xs, a, topic) <==> Run(a, DoAddServer(topic, addr)) in xs
  {
    if addr in Registered(xs, a, topic) {
      RegisteredIn(xs, a, topic, addr);
    }
    if xs != [] {
      RegisteredIff(xs[1..], a, topic, addr);
      assert xs == [xs[0]] + xs[1..];
    }
  }

  lemma {:induction false} NoneRegistered(xs: seq<Action>, a: Addr, topic: string)
    ensures Registered(xs, a, topic) == [] <==> forall addr :: Run(a, DoAddServer(topic, addr)) !in xs
  {
    forall addr ensures addr in Registered(xs, a, topic) <==> Run(a, DoAddServer(topic, addr)) in xs {
      RegisteredIff(xs, a, topic, addr);
    }
    if Registered(xs, a, topic) != [] {
      assert Registered(xs, a, topic)[0] in Registered(xs, a, topic);
    }
  }

  lemma BegunIsCall(s0: State, xs: seq<Action>, a: Addr, k: nat, topic: string, bytes: Bytes, reliable: bool)
    requires Init(s0) && Runs(s0, xs) && Run(a, DoBegin(k, topic, bytes, reliable)) in xs
    ensures a in Exec(s0, xs).nodes && k in Exec(s0, xs).nodes[a].calls
  {
    hide Runs, Exec;
    var x := Run(a, DoBegin(k, topic, bytes, reliable));
    var i :| 0 <= i < |xs| && xs[i] == x;
    assert xs == Opening(xs[..i], a, k, topic, bytes, reliable) + xs[i + 1..];
    ServersRead(s0, xs[..i], a, k, topic, bytes, reliable, xs[i + 1..]);
  }

  /** When a `send` gets going: exactly if its process has added a server for the topic, and the id, a 128-bit
      number, is new; otherwise it returns at once. */
  lemma BeginsIff(s0: State, xs: seq<Action>, a: Addr, k: nat, topic: string, bytes: Bytes, reliable: bool)
    requires Init(s0) && Runs(s0, xs) && a in s0.nodes && SizedSend(k, topic, bytes, reliable)
    ensures Enabled(Exec(s0, xs), Run(a, DoBegin(k, topic, bytes, reliable))) <==>
      && k <= 340282366920938463463374607431768211455
      && (exists addr :: Run(a, DoAddServer(topic, addr)) in xs)
      && (forall t, b, r :: Run(a, DoBegin(k, t, b, r)) !in xs)
  {
    hide Inv, Runs, Exec, SizedSend;
    InitInv(s0);
    var n := s0.nodes[a];
    CallsBegun(s0, xs, a, k);
    Registrations(s0, xs, a, topic);
    NoneRegistered(xs, a, topic);
    ExecKeepsInv(s0, xs);
    NoEmptyEntry(Exec(s0, xs), a, topic);
    forall t, b, r | Run(a, DoBegin(k, t, b, r)) in xs ensures k in Exec(s0, xs).nodes[a].calls {
      BegunIsCall(s0, xs, a, k, t, b, r);
    }
  }

  lemma NoEmptyEntry(s: State, a: Addr, topic: string)
    requires Inv(s) && a in s.nodes
    ensures topic in s.nodes[a].servers <==> Known(s.nodes[a], topic) != []
  {
    hide ServerOk, FinishOk, PacketOk, CallOk, Tracked;
    assert NodeOk(s, a);
  }

  // ---------------------------------------------------------------- each of them can win

  /** Who can win, in terms of the run: exactly the running processes that were added before the `send`, whose
      buffer takes the invite, if the client's takes the vote. */
  lemma ElectableIff(s0: State, xs: seq<Action>, a: Addr, k: nat, topic: string, bytes: Bytes, reliable: bool,
                     ys: seq<Action>, b: Addr)
    requires Init(s0) && Runs(s0, Opening(xs, a, k, topic, bytes, reliable) + ys)
    ensures a in s0.nodes
    ensures Electable(Exec(s0, Opening(xs, a, k, topic, bytes, reliable) + ys), a, k, b) <==>
      && Run(a, DoAddServer(topic, b)) in xs && b in s0.nodes
      && Fits(s0.nodes[b].block, Msg(Invite, Show(k), reliable, topic, []))
      && Fits(s0.nodes[a].block, Msg(Volunteer, Show(k), reliable, topic, []))
  {
    hide Inv, Runs, Exec, Grows, Opening, Fits, Sendable, Show, Registered;
    var zs := Opening(xs, a, k, topic, bytes, reliable) + ys;
    ServersRead(s0, xs, a, k, topic, bytes, reliable, ys);
    RegisteredIff(xs, a, topic, b);
    InitInv(s0);
    ExecKeepsInv(s0, zs);
    BlocksStay(s0, Exec(s0, zs));
  }

  lemma BlocksStay(s: State, t: State)
    requires Grows(s, t)
    ensures s.nodes.Keys == t.nodes.Keys && forall a | a in s.nodes :: t.nodes[a].block == s.nodes[a].block
  {
    forall a | a in s.nodes ensures t.nodes[a].block == s.nodes[a].block {
      assert NodeGrows(s.nodes[a], t.nodes[a]);
    }
  }

  /** From a call without a winner: `b` is elected, gets the message, and the send returns. */
  lemma WinAndComplete(s: State, a: Addr, k: nat, b: Addr) returns (xs: seq<Action>, t: State)
    requires Ctx(s, a, k, b) && Able(s, a, k, b)
    ensures Leads(s, xs, t) && (forall x | x in xs :: Internal(x)) && ReturnedAt(t, a, k)
    ensures ReceivedAt(t, b, a, Payload(k, s.nodes[a].calls[k]))
  {
    hide Inv, Leads, Chosen, Grows, Able, Electable, Runs, Exec;
    ElectableIsCall(s, a, k, b);
    var ys, u;
    ys, u := ReachElected(s, a, k, b);
    AbleGrows(s, u, a, k, b);
    var zs;
    zs, t := Complete(u, a, k, b);
    IsLeads(u, zs, t);
    LeadsThen(s, ys, u, zs, t);
    xs := ys + zs;
    ElectableIsCall(u, a, k, b);
    ChosenStays(u, zs, a, k);
    ExecKeepsInv(u, zs);
    GrowsAt(s, u, a, k);
    GrowsAt(u, t, a, k);
    AbleFits(s, a, k, b);
    WinnerReceived(t, a, k, b);
  }

  lemma WinnerReceived(s: State, a: Addr, k: nat, b: Addr)
    requires Inv(s) && ReturnedAt(s, a, k) && ReliableCall(s, a, k) && Chosen(s.nodes[a], k) == Some(b)
    ensures ReceivedAt(s, b, a, Payload(k, s.nodes[a].calls[k]))
  {
    hide Inv, Fits, Sendable, Show, SizedSend;
    KeyOkAt(s, a, k);
    AckedIsReceived(s, a, k);
    CargoIsData(s, a, k);
  }

  /** Every server added before the `send` can win it, whatever was added before or after it and whoever is down:
      if the message is small enough for both buffers, some schedule of internal steps has exactly this server
      receive it and the send return. */
  lemma EveryServerCanWin(s0: State, xs: seq<Action>, a: Addr, k: nat, topic: string, bytes: Bytes, b: Addr)
    returns (ys: seq<Action>)
    requires Init(s0) && Runs(s0, Opening(xs, a, k, topic, bytes, true)) && a in s0.nodes && b in s0.nodes
    requires Run(a, DoAddServer(topic, b)) in xs
    requires Small(s0.nodes[a].block, k, topic, bytes) && Small(s0.nodes[b].block, k, topic, bytes)
    ensures Runs(s0, Opening(xs, a, k, topic, bytes, true) + ys) && forall x | x in ys :: Internal(x)
    ensures var s := Exec(s0, Opening(xs, a, k, topic, bytes, true) + ys);
      ReturnedAt(s, a, k) && ReceivedAt(s, b, a, Msg(Data, Show(k), true, topic, bytes))
  {
    hide Inv, Runs, Exec, Leads, Grows, Chosen, Opening, Fits, Sendable, Show, Electable, Small, SizedSend, Registered;
    var zs := Opening(xs, a, k, topic, bytes, true);
    SmallExchange(s0.nodes[a].block, k, topic, bytes);
    SmallExchange(s0.nodes[b].block, k, topic, bytes);
    Opened(s0, xs, a, k, topic, bytes, true);
    assert zs + [] == zs;
    ElectableIff(s0, xs, a, k, topic, bytes, true, [], b);
    InitInv(s0);
    ExecKeepsInv(s0, zs);
    var s := Exec(s0, zs);
    BlocksStay(s0, s);
    assert Able(s, a, k, b);
    var t;
    ys, t := WinAndComplete(s, a, k, b);
    IsLeads(s0, zs, s);
    LeadsThen(s0, zs, s, ys, t);
    LeadsIs(s0, zs + ys, t);
  }

  /** Process 0 adds a server that is down, then process 1, and sends: the second server wins. */
  lemma SecondServerWins() returns (ys: seq<Action>)
    ensures var xs := [Run(0, DoAddServer("t", 7)), Run(0, DoAddServer("t", 1)), Run(0, DoBegin(1, "t", [5], true))];
      && Init(TWO) && 7 !in TWO.nodes && Runs(TWO, xs + ys)
      && ReturnedAt(Exec(TWO, xs + ys), 0, 1) && ReceivedAt(Exec(TWO, xs + ys), 1, 0, Msg(Data, "1", true, "t", [5]))
  {
    hide Runs, Exec, Show;
    ShowOne();
    TwoAddsThenSend();
    assert Small(65536, 1, "t", [5]) && Small(1024, 1, "t", [5]);
    var xs := [Run(0, DoAddServer("t", 7)), Run(0, DoAddServer("t", 1))];
    var x := Run(0, DoBegin(1, "t", [5], true));
    assert xs[1] in xs && Opening(xs, 0, 1, "t", [5], true) == [xs[0], xs[1], x];
    ys := EveryServerCanWin(TWO, xs, 0, 1, "t", [5], 1);
  }

  lemma TwoAddsThenSend()
    ensures Runs(TWO, [Run(0, DoAddServer("t", 7)), Run(0, DoAddServer("t", 1)), Run(0, DoBegin(1, "t", [5], true))])
  {
    hide Runs, Exec, Leads, Show, SizedSend;
    var xs := [Run(0, DoAddServer("t", 7)), Run(0, DoAddServer("t", 1))];
    var x := Run(0, DoBegin(1, "t", [5], true));
    TwoAdds();
    assert Small(1024, 1, "t", [5]) by { ShowOne(); }
    SmallExchange(1024, 1, "t", [5]);
    assert xs[0] in xs;
    BeginsIff(TWO, xs, 0, 1, "t", [5], true);
    LeadsOne(Exec(TWO, xs), x);
    LeadsIs(Exec(TWO, xs), [x], Next(Exec(TWO, xs), x));
    RunsThen(TWO, xs, [x]);
    assert xs + [x] == [xs[0], xs[1], x];
  }

  lemma TwoAdds()
    ensures Runs(TWO, [Run(0, DoAddServer("t", 7)), Run(0, DoAddServer("t", 1))])
  {
    var x, y := Run(0, DoAddServer("t", 7)), Run(0, DoAddServer("t", 1));
    RunsTwo(TWO, x, y);
  }
}
