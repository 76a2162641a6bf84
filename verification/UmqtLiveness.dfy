/** When a `send` can still return, when it always can, and when it never does. */
module UmqtLiveness {
  import opened Common
  import opened Decimal
  import opened Headers
  import opened UmqtWire
  import opened UmqtNode
  import opened UmqtClient
  import opened UmqtSystem
  import opened UmqtInvariant
  import opened UmqtHistory
  import opened UmqtSafety
  import opened UmqtRefinement
  import opened UmqtSchedules

  /** An electable server with which a reliable call can also complete: the data fits its buffer, and the
      acknowledgement the client's. */
  predicate Able(s: State, a: Addr, k: nat, b: Addr) {
    && Electable(s, a, k, b) && s.nodes[a].calls[k].reliable
    && (var c := s.nodes[a].calls[k];
        Fits(s.nodes[b].block, Payload(k, c)) && Fits(s.nodes[a].block, Answer(Ack, Payload(k, c))))
  }

  lemma AbleFits(s: State, a: Addr, k: nat, b: Addr)
    requires Able(s, a, k, b)
    ensures ReliableCall(s, a, k) && b in s.nodes && Electable(s, a, k, b)
    ensures var c := s.nodes[a].calls[k];
      Fits(s.nodes[b].block, Payload(k, c)) && Fits(s.nodes[a].block, Answer(Ack, Payload(k, c)))
  {
    hide Fits, Sendable, Electable;
    ElectableIsCall(s, a, k, b);
  }

  lemma AbleGrows(s: State, t: State, a: Addr, k: nat, b: Addr)
    requires Able(s, a, k, b) && Grows(s, t)
    ensures Able(t, a, k, b)
  {
    hide Fits, Sendable, Show, Electable, Grows;
    AbleFits(s, a, k, b);
    ElectableGrows(s, t, a, k, b);
    GrowsAt(s, t, a, k);
  }

  lemma AbleShrinks(s: State, t: State, a: Addr, k: nat, b: Addr)
    requires Able(t, a, k, b) && Grows(s, t) && ReliableCall(s, a, k)
    ensures Able(s, a, k, b)
  {
    hide Fits, Sendable, Show, Electable, Grows;
    AbleFits(t, a, k, b);
    ElectableShrinks(s, t, a, k, b);
    GrowsAt(s, t, a, k);
    ElectableIsCall(s, a, k, b);
  }

  /** A sender whose request is not acknowledged yet carries the payload to `b` and is running. */
  lemma SenderRuns(s: State, a: Addr, k: nat, b: Addr)
    requires Ctx(s, a, k, b) && k in s.nodes[a].tasks && k in s.nodes[a].finish
    ensures Running(s.nodes[a], k) && s.nodes[a].tasks[k] == Task(b, Payload(k, s.nodes[a].calls[k]), true)
  {
    hide Inv, Fits, Sendable, Show, Electable, SizedSend;
    ElectableIsCall(s, a, k, b);
    KeyOkAt(s, a, k);
  }

  /** Data to `b`, and its acknowledgement on the network. */
  lemma GetAck(s: State, a: Addr, k: nat, b: Addr) returns (xs: seq<Action>, t: State)
    requires Ctx(s, a, k, b) && Able(s, a, k, b) && k in s.nodes[a].tasks && k in s.nodes[a].finish
    ensures Reaches(s, xs, t, a, k, b) && Packet(b, a, Answer(Ack, Payload(k, s.nodes[a].calls[k]))) in t.net
  {
    hide Inv, KeyOk, Fits, Sendable, Leads, Chosen, Show, Acked, Grows, Electable;
    SenderRuns(s, a, k, b);
    CtxFacts(s, a, k, b);
    AbleFits(s, a, k, b);
    FitsIsSendable(s.nodes[b].block, Payload(k, s.nodes[a].calls[k]));
    FitsIsSendable(s.nodes[a].block, Answer(Ack, Payload(k, s.nodes[a].calls[k])));
    ReachesNone(s, a, k, b);
    xs, t := Then(s, [], s, Run(a, DoTransmit(k)), a, k, b);
    GrowsAt(s, t, a, k);
    var ys, u := Drain(t, b, a, k, b);
    ReachesThen(s, xs, t, ys, u, a, k, b);
    var data := Packet(a, b, Payload(k, s.nodes[a].calls[k]));
    assert data in u.net;
    xs, t := DeliverWhole(s, xs + ys, u, data, a, k, b);
  }

  /** The acknowledgement is taken. */
  lemma TakeAck(s: State, a: Addr, k: nat, b: Addr) returns (xs: seq<Action>, t: State)
    requires Ctx(s, a, k, b) && Able(s, a, k, b) && k in s.nodes[a].tasks && Rank(s.nodes[a].calls[k].pc) >= 4
    ensures Reaches(s, xs, t, a, k, b) && Acked(t, a, k)
  {
    hide Inv, KeyOk, Fits, Sendable, Leads, Chosen, Show, Grows, IdOf, Electable;
    CtxFacts(s, a, k, b);
    AbleFits(s, a, k, b);
    if k !in s.nodes[a].finish {
      ReachesNone(s, a, k, b);
      return [], s;
    }
    xs, t := GetAck(s, a, k, b);
    GrowsAt(s, t, a, k);
    var ys, u := Drain(t, a, a, k, b);
    ReachesThen(s, xs, t, ys, u, a, k, b);
    xs, t := xs + ys, u;
    CtxFacts(t, a, k, b);
    if k in t.nodes[a].finish {
      IdOfCall(s, a, k, b);
      var ack := Packet(b, a, Answer(Ack, Payload(k, s.nodes[a].calls[k])));
      xs, u := DeliverWhole(s, xs, t, ack, a, k, b);
      CtxFacts(u, a, k, b);
      t := u;
    }
  }

  predicate ReturnedAt(s: State, a: Addr, k: nat) {
    a in s.nodes && In(s.nodes[a], k, Returned)
  }

  /** Once acknowledged, `send` wakes up and returns. */
  lemma Conclude(s: State, a: Addr, k: nat, b: Addr) returns (xs: seq<Action>, t: State)
    requires Ctx(s, a, k, b) && Acked(s, a, k)
    ensures Reaches(s, xs, t, a, k, b) && ReturnedAt(t, a, k)
  {
    hide Inv, Fits, Sendable, Leads, Chosen, Show, Grows, Electable, SizedSend;
    CtxFacts(s, a, k, b);
    ReachesNone(s, a, k, b);
    xs, t := [], s;
    if s.nodes[a].calls[k].pc.Inviting? {
      xs, t := FinishTick(s, a, k, b);
      CtxFacts(t, a, k, b);
      xs, t := Then(s, xs, t, Run(a, DoDiscovered(k)), a, k, b);
      CtxFacts(t, a, k, b);
    }
    if t.nodes[a].calls[k].pc.AwaitFinish? {
      xs, t := Then(s, xs, t, Run(a, DoFinished(k)), a, k, b);
    }
  }

  /** The whole schedule of a reliable send: set up, elect, send, acknowledge, return. */
  lemma Complete(s: State, a: Addr, k: nat, b: Addr) returns (xs: seq<Action>, t: State)
    requires Ctx(s, a, k, b) && Able(s, a, k, b)
    ensures Runs(s, xs) && Exec(s, xs) == t && ReturnedAt(t, a, k)
    ensures forall x | x in xs :: Internal(x)
  {
    hide Inv, KeyOk, Leads, Chosen, Grows, Able, Electable, Internal;
    var ys, t1, t2, t3;
    xs, t1 := ReachElected(s, a, k, b);
    AbleGrows(s, t1, a, k, b);
    ys, t2 := Equip(t1, a, k, b);
    ReachesThen(s, xs, t1, ys, t2, a, k, b);
    xs := xs + ys;
    AbleGrows(s, t2, a, k, b);
    ElectableIsCall(t1, a, k, b);
    GrowsAt(t1, t2, a, k);
    ys, t3 := TakeAck(t2, a, k, b);
    ReachesThen(s, xs, t2, ys, t3, a, k, b);
    xs := xs + ys;
    ys, t := Conclude(t3, a, k, b);
    ReachesThen(s, xs, t3, ys, t, a, k, b);
    xs := xs + ys;
    LeadsIs(s, xs, t);
  }

  lemma LeadsIs(s: State, xs: seq<Action>, t: State)
    requires Leads(s, xs, t)
    ensures Runs(s, xs) && Exec(s, xs) == t
  {
  }

  // ---------------------------------------------------------------- the winner

  /** A winner stays the winner. */
  lemma {:induction false} ChosenStays(s: State, xs: seq<Action>, a: Addr, k: nat)
    requires Inv(s) && Runs(s, xs) && a in s.nodes && k in s.nodes[a].calls
    ensures a in Exec(s, xs).nodes && k in Exec(s, xs).nodes[a].calls
    ensures Chosen(s.nodes[a], k).Some? ==> Chosen(Exec(s, xs).nodes[a], k) == Chosen(s.nodes[a], k)
    decreases |xs|
  {
    hide Inv, Enabled, Next, Chosen, Grows, HarmlessFor;
    if xs != [] {
      StepKeepsInv(s, xs[0]);
      GrowsAt(s, Next(s, xs[0]), a, k);
      StepChooses(s, xs[0], a, k, 0);
      ChosenStays(Next(s, xs[0]), xs[1..], a, k);
    }
  }

  lemma VoteFits(s: State, p: Packet)
    requires Inv(s) && p in s.net && p.msg.kind == Volunteer
    ensures p.src in s.nodes && Fits(s.nodes[p.src].block, Answer(Invite, p.msg))
  {
    hide NodeOk, Fits, Sendable, IdOf;
    assert PacketOk(s, p);
  }

  /** Whoever won was electable: its vote is in the log, so it took the invite, and the client took the vote. */
  lemma ChosenIsElectable(s: State, a: Addr, k: nat)
    requires Inv(s) && History(s) && a in s.nodes && k in s.nodes[a].calls && Chosen(s.nodes[a], k).Some?
    ensures Electable(s, a, k, Chosen(s.nodes[a], k).value)
  {
    hide ServerOk, FinishOk, PacketOk, IdOf, Show, Sized, Fits, Sendable;
    hide PcOk, DiscoveryOk, NotifiersOk, NoAck, Ordered;
    var n := s.nodes[a];
    assert NodeOk(s, a) && KeyOk(n, k) && ElectedOk(s, a, k);
    VoteFits(s, Packet(Chosen(n, k).value, a, Vote(k, n.calls[k])));
  }

  /** A returned call has a winner. */
  lemma ReturnedHasWinner(s: State, a: Addr, k: nat)
    requires Inv(s) && ReturnedAt(s, a, k)
    ensures k in s.nodes[a].calls && Chosen(s.nodes[a], k).Some?
  {
    hide Inv, Fits, Sendable, Show, SizedSend;
    KeyOkAt(s, a, k);
  }

  /** A reliable call has only returned from a server it could complete with. */
  lemma ReturnedIsAble(s: State, a: Addr, k: nat)
    requires Inv(s) && History(s) && ReliableCall(s, a, k) && ReturnedAt(s, a, k)
    ensures Chosen(s.nodes[a], k).Some? && Able(s, a, k, Chosen(s.nodes[a], k).value)
  {
    hide ServerOk, PacketOk, IdOf, Show, Sized, Fits, Sendable, PcOk, Ordered, Electable, ElectedOk;
    var n := s.nodes[a];
    ReturnedHasWinner(s, a, k);
    ChosenIsElectable(s, a, k);
    assert NodeOk(s, a) && KeyOk(n, k) && FinishOk(s, a, k, n.calls[k]);
    ReceivedFits(s, n.tasks[k].dst, a, n.tasks[k].data);
  }

  // ---------------------------------------------------------------- can it still return?

  ghost predicate CanReturn(s: State, a: Addr, k: nat) {
    exists xs :: Runs(s, xs) && ReturnedAt(Exec(s, xs), a, k)
  }

  /** No continuation ever gets stuck: whatever happens next, some schedule still completes the call. */
  ghost predicate AlwaysCanReturn(s: State, a: Addr, k: nat) {
    forall xs | Runs(s, xs) :: CanReturn(Exec(s, xs), a, k)
  }

  /** Liveness, exactly: a reliable send can still return if and only if some server is able to take part in
      the whole exchange: the chosen one, or any of the servers read while none is chosen. */
  lemma CompletesIff(s: State, a: Addr, k: nat)
    requires Reachable(s) && ReliableCall(s, a, k)
    ensures CanReturn(s, a, k) <==> exists b :: Candidate(s, a, k, b) && Able(s, a, k, b)
  {
    hide Inv, History, Once, Candidate, Able, CanReturn;
    ReachableHistory(s);
    CompletesIffHere(s, a, k);
  }

  lemma CompletesIffHere(s: State, a: Addr, k: nat)
    requires Inv(s) && History(s) && Once(s) && ReliableCall(s, a, k)
    ensures CanReturn(s, a, k) <==> exists b :: Candidate(s, a, k, b) && Able(s, a, k, b)
  {
    hide Inv, History, Once, Able, Electable, Chosen, Grows, Enabled, Next;
    if b :| Candidate(s, a, k, b) && Able(s, a, k, b) {
      var xs, t := Complete(s, a, k, b);
      assert Runs(s, xs) && ReturnedAt(Exec(s, xs), a, k);
    }
    if xs :| Runs(s, xs) && ReturnedAt(Exec(s, xs), a, k) {
      var t := Exec(s, xs);
      ExecKeepsInv(s, xs);
      ExecKeepsHistory(s, xs);
      ChosenStays(s, xs, a, k);
      GrowsAt(s, t, a, k);
      ReturnedIsAble(t, a, k);
      var b := Chosen(t.nodes[a], k).value;
      AbleShrinks(s, t, a, k, b);
      AbleFits(s, a, k, b);
      assert Candidate(s, a, k, b) && Able(s, a, k, b);
    }
  }

  /** A candidate can be made the winner by a run. */
  lemma CanElect(s: State, a: Addr, k: nat, b: Addr) returns (xs: seq<Action>)
    requires Inv(s) && Candidate(s, a, k, b)
    ensures Runs(s, xs) && a in Exec(s, xs).nodes && Chosen(Exec(s, xs).nodes[a], k) == Some(b)
    ensures forall x | x in xs :: Internal(x)
  {
    hide Inv, Leads, Chosen, Electable, Grows, Internal;
    var t;
    xs, t := ReachElected(s, a, k, b);
    LeadsIs(s, xs, t);
    ElectableIsCall(t, a, k, b);
  }

  /** A candidate of a later state was one before. */
  lemma CandidateShrinks(s: State, xs: seq<Action>, a: Addr, k: nat, b: Addr)
    requires Inv(s) && Runs(s, xs) && a in s.nodes && k in s.nodes[a].calls && Candidate(Exec(s, xs), a, k, b)
    ensures Candidate(s, a, k, b)
  {
    hide Inv, Chosen, Electable, Grows;
    ExecKeepsInv(s, xs);
    ChosenStays(s, xs, a, k);
    ElectableShrinks(s, Exec(s, xs), a, k, b);
  }

  /** While some server can win, some server still can after any run. */
  lemma SomeCandidate(s: State, xs: seq<Action>, a: Addr, k: nat, b: Addr) returns (b': Addr)
    requires Inv(s) && History(s) && Once(s) && Runs(s, xs) && Candidate(s, a, k, b)
    ensures Candidate(Exec(s, xs), a, k, b') && Candidate(s, a, k, b')
  {
    hide Inv, History, Once, Chosen, Electable, Grows;
    var t := Exec(s, xs);
    ElectableIsCall(s, a, k, b);
    ExecKeepsInv(s, xs);
    ExecKeepsHistory(s, xs);
    ChosenStays(s, xs, a, k);
    if Chosen(t.nodes[a], k).Some? {
      ChosenIsElectable(t, a, k);
      b' := Chosen(t.nodes[a], k).value;
    } else {
      ElectableGrows(s, t, a, k, b);
      b' := b;
    }
    CandidateShrinks(s, xs, a, k, b');
  }

  /** Never stuck, exactly: every continuation of a reliable send can still be completed if and only if some
      server can win it and every server that can win it can also complete it. A server that is down, or whose
      buffer does not take the invite, does no harm; one that takes the invite but not the data does. */
  lemma NeverStuckIff(s: State, a: Addr, k: nat)
    requires Reachable(s) && ReliableCall(s, a, k)
    ensures AlwaysCanReturn(s, a, k) <==>
      (exists b :: Candidate(s, a, k, b)) && (forall b | Candidate(s, a, k, b) :: Able(s, a, k, b))
  {
    hide Inv, History, Once, Candidate, Able, CanReturn, Runs, Exec;
    ReachableHistory(s);
    if AlwaysCanReturn(s, a, k) {
      AlwaysMeansNow(s, a, k);
      CompletesIffHere(s, a, k);
      forall b | Candidate(s, a, k, b) ensures Able(s, a, k, b) {
        WinnerMustBeAble(s, a, k, b);
      }
    } else {
      forall b0 | Candidate(s, a, k, b0) && forall b | Candidate(s, a, k, b) :: Able(s, a, k, b) ensures false {
        forall xs | Runs(s, xs) ensures CanReturn(Exec(s, xs), a, k) {
          var b := SomeCandidate(s, xs, a, k, b0);
          StillReturns(s, xs, a, k, b);
        }
      }
    }
  }

  lemma AlwaysMeansNow(s: State, a: Addr, k: nat)
    requires AlwaysCanReturn(s, a, k)
    ensures CanReturn(s, a, k)
  {
    hide CanReturn;
    assert Runs(s, []) && Exec(s, []) == s;
  }

  lemma StillReturns(s: State, xs: seq<Action>, a: Addr, k: nat, b: Addr)
    requires Inv(s) && Runs(s, xs) && Able(s, a, k, b) && Candidate(Exec(s, xs), a, k, b)
    ensures CanReturn(Exec(s, xs), a, k)
  {
    hide Inv, Candidate, Able, Grows, Runs, Exec, ReturnedAt;
    ExecKeepsInv(s, xs);
    AbleGrows(s, Exec(s, xs), a, k, b);
    var ys, t := Complete(Exec(s, xs), a, k, b);
  }

  /** A server that can win but not complete is a dead end that some run takes. */
  lemma WinnerMustBeAble(s: State, a: Addr, k: nat, b: Addr)
    requires Inv(s) && History(s) && Once(s) && ReliableCall(s, a, k)
    requires AlwaysCanReturn(s, a, k) && Candidate(s, a, k, b)
    ensures Able(s, a, k, b)
  {
    hide Inv, History, Once, Able, Electable, Chosen, CanReturn, Grows, Runs, Exec;
    var xs := CanElect(s, a, k, b);
    var t := Exec(s, xs);
    ExecKeepsInv(s, xs);
    ExecKeepsHistory(s, xs);
    GrowsAt(s, t, a, k);
    CompletesIffHere(t, a, k);
    var b' :| Candidate(t, a, k, b') && Able(t, a, k, b');
    AbleShrinks(s, t, a, k, b);
  }

  /** A reliable send whose data overflows the buffer of the server that won it never returns. */
  lemma OverflowNeverReturns(s: State, a: Addr, k: nat, b: Addr)
    requires Reachable(s) && ReliableCall(s, a, k) && Chosen(s.nodes[a], k) == Some(b)
    requires b in s.nodes ==> !Fits(s.nodes[b].block, Payload(k, s.nodes[a].calls[k]))
    ensures !CanReturn(s, a, k)
  {
    hide Inv, Chosen, Fits, Sendable, CanReturn, Reachable;
    CompletesIff(s, a, k);
  }

  // ---------------------------------------------------------------- unreliable sends

  /** An unreliable send wakes up as soon as a server is elected. */
  lemma CompleteUnreliable(s: State, a: Addr, k: nat, b: Addr) returns (xs: seq<Action>, t: State)
    requires Ctx(s, a, k, b) && !s.nodes[a].calls[k].reliable
    ensures Runs(s, xs) && Exec(s, xs) == t && ReturnedAt(t, a, k)
    ensures forall x | x in xs :: Internal(x)
  {
    hide Inv, Leads, Chosen, Grows, Electable, KeyOk;
    var ys, u;
    ElectableIsCall(s, a, k, b);
    xs, t := ReachElected(s, a, k, b);
    GrowsAt(s, t, a, k);
    CtxFacts(t, a, k, b);
    UnreliableWins(t.nodes[a], k);
    if t.nodes[a].calls[k].pc != Returned {
      ys, u := FinishTick(t, a, k, b);
      ReachesThen(s, xs, t, ys, u, a, k, b);
      xs, t := xs + ys, u;
      CtxFacts(t, a, k, b);
      ElectableIsCall(t, a, k, b);
      UnreliableWins(t.nodes[a], k);
      xs, t := Then(s, xs, t, Run(a, DoDiscovered(k)), a, k, b);
    }
    LeadsIs(s, xs, t);
  }

  lemma UnreliableWins(n: Node, k: nat)
    requires k in n.calls && KeyOk(n, k) && !n.calls[k].reliable && Chosen(n, k).Some? && Rank(n.calls[k].pc) >= 4
    ensures n.calls[k].pc == Returned ||
      (n.calls[k].pc.Inviting? && n.calls[k].pc.next <= |n.calls[k].servers| && k in n.discoveryPermits)
  {
    hide Fits, Sendable, Show, SizedSend;
  }

  /** An unreliable send can return, and then after every continuation still can, if and only if some server
      can win it. Its data is sent once and may be lost; nobody waits for it. */
  lemma UnreliableReturnsIff(s: State, a: Addr, k: nat)
    requires Reachable(s) && a in s.nodes && k in s.nodes[a].calls && !s.nodes[a].calls[k].reliable
    ensures CanReturn(s, a, k) <==> exists b :: Candidate(s, a, k, b)
    ensures CanReturn(s, a, k) <==> AlwaysCanReturn(s, a, k)
  {
    hide Inv, History, Once, Candidate, Runs, Exec, CanReturn;
    ReachableHistory(s);
    if b :| Candidate(s, a, k, b) {
      forall xs | Runs(s, xs) ensures CanReturn(Exec(s, xs), a, k) {
        var b' := SomeCandidate(s, xs, a, k, b);
        UnreliableReturns(s, xs, a, k, b');
      }
      AlwaysMeansNow(s, a, k);
    } else {
      if CanReturn(s, a, k) {
        var b := UnreliableHadCandidate(s, a, k);
      }
      if AlwaysCanReturn(s, a, k) {
        AlwaysMeansNow(s, a, k);
      }
    }
  }

  lemma UnreliableReturns(s: State, xs: seq<Action>, a: Addr, k: nat, b: Addr)
    requires Inv(s) && Runs(s, xs) && a in s.nodes && k in s.nodes[a].calls && !s.nodes[a].calls[k].reliable
    requires Candidate(Exec(s, xs), a, k, b)
    ensures CanReturn(Exec(s, xs), a, k)
  {
    hide Inv, Candidate, Grows, Runs, Exec, ReturnedAt;
    ExecKeepsInv(s, xs);
    GrowsAt(s, Exec(s, xs), a, k);
    var ys, t := CompleteUnreliable(Exec(s, xs), a, k, b);
  }

  lemma UnreliableHadCandidate(s: State, a: Addr, k: nat) returns (b: Addr)
    requires Inv(s) && History(s) && Once(s) && a in s.nodes && k in s.nodes[a].calls && CanReturn(s, a, k)
    ensures Candidate(s, a, k, b)
  {
    hide Inv, History, Once, Chosen, Electable, Runs, Exec, ReturnedAt;
    var xs :| Runs(s, xs) && ReturnedAt(Exec(s, xs), a, k);
    var t := Exec(s, xs);
    ExecKeepsInv(s, xs);
    ExecKeepsHistory(s, xs);
    ChosenStays(s, xs, a, k);
    ReturnedHasWinner(t, a, k);
    ChosenIsElectable(t, a, k);
    b := Chosen(t.nodes[a], k).value;
    CandidateShrinks(s, xs, a, k, b);
  }

  // ---------------------------------------------------------------- measure

  function PhaseRank(f: Phase): nat {
    match f
    case Pending => 0
    case Assigned(_) => 1
    case Received(_, _) => 2
    case Completed(_, _) => 3
  }

  /** What is left of a send: phases first, then the position of `send` itself. */
  function Left(s: State, a: Addr, k: nat): (nat, nat)
    requires ReliableCall(s, a, k)
  {
    (3 - PhaseRank(PhaseOf(s, a, k)), 6 - Rank(s.nodes[a].calls[k].pc))
  }

  /** No step of any process or of the network puts a send further from its end, in either component, and
      nothing is left exactly when it has returned. */
  lemma NothingSetsBack(s: State, x: Action, a: Addr, k: nat)
    requires Reachable(s) && Enabled(s, x) && ReliableCall(s, a, k)
    ensures ReliableCall(Next(s, x), a, k)
    ensures Left(Next(s, x), a, k).0 <= Left(s, a, k).0 && Left(Next(s, x), a, k).1 <= Left(s, a, k).1
    ensures Left(s, a, k) == (0, 0) <==> ReturnedAt(s, a, k)
  {
    hide Inv, PhaseOf, Next, Grows, Enabled, Reachable;
    ReachableInv(s);
    StepKeepsInv(s, x);
    StepRefines(s, x, a, k);
    GrowsAt(s, Next(s, x), a, k);
    DoneIsCompleted(s, a, k);
  }

  lemma DoneIsCompleted(s: State, a: Addr, k: nat)
    requires Inv(s) && ReliableCall(s, a, k)
    ensures ReturnedAt(s, a, k) <==> PhaseOf(s, a, k).Completed?
  {
    hide Inv, Fits, Sendable, Show, SizedSend;
    KeyOkAt(s, a, k);
  }
}
