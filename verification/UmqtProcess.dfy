/** `UMQT`, the mutable process: its lock sections, wake-ups and sends as methods over real bytes, each
    proved to be the corresponding step of `UmqtNode`. */
module UmqtProcess {
  import opened Common
  import opened Decimal
  import opened Framing
  import opened Headers
  import opened UmqtWire
  import opened UmqtRequest
  import UmqtClient
  import UmqtNode
  import Json
  import Utf8

  type Addr = UmqtNode.Addr

  datatype Datagram = Datagram(to: Addr, payload: Bytes)

  /** The bytes of the packets a step sends. */
  function OnWire(ps: seq<UmqtNode.Packet>): seq<Datagram> {
    if ps == [] then [] else [Datagram(ps[0].dst, Encode(ps[0].msg))] + OnWire(ps[1..])
  }

  /** The encoder written out in `send` and in three arms of the acceptor. */
  method BuildFrame(h: UmqtHeader, bytes: Bytes) returns (buff: Bytes)
    ensures buff == Frame(UmqtText(h), bytes)
  {
    buff := [];
    var json := Json.ToBytes(UmqtJson(h));
    var meta := Utf8.Encode(Show(|json|) + ['+'] + Show(|bytes|) + [':']);
    buff := buff + meta;
    buff := buff + json;
    buff := buff + bytes;
  }

  method EncodeMsg(m: Msg) returns (buff: Bytes)
    ensures buff == Encode(m)
  {
    buff := BuildFrame(HeaderOf(m), m.bytes);
  }

  /** `send_to`; its error for a datagram too large for UDP is ignored. */
  method SendTo(to: Addr, buff: Bytes) returns (out: seq<Datagram>)
    ensures out == if |buff| <= 65507 then [Datagram(to, buff)] else []
  {
    if |buff| > UDP_MAX {
      return [];
    }
    return [Datagram(to, buff)];
  }

  lemma EmitOnWire(p: UmqtNode.Packet)
    ensures OnWire(UmqtNode.Emit(p)) ==
      if |Encode(p.msg)| <= UDP_MAX then [Datagram(p.dst, Encode(p.msg))] else []
  {
  }

  lemma Keeps(self: Addr, n: UmqtNode.Node, act: UmqtNode.Act)
    requires UmqtNode.CanAct(n, act)
    ensures UmqtClient.ClientOk(n) ==> UmqtClient.ClientOk(UmqtNode.Do(self, n, act).0)
  {
    hide UmqtClient.ClientOk, UmqtNode.CanAct, UmqtNode.Do;
    if UmqtClient.ClientOk(n) {
      UmqtClient.DoKeepsClientOk(self, n, act);
    }
  }

  lemma AcceptKeeps(self: Addr, n: UmqtNode.Node, from: Addr, arrived: Option<Msg>)
    requires n.acceptor.Ready?
    ensures UmqtClient.ClientOk(n) && UmqtClient.Honest(n, from, arrived) ==>
      UmqtClient.ClientOk(UmqtNode.Accept(self, n, from, arrived).0)
  {
    hide UmqtClient.ClientOk, UmqtClient.Honest, UmqtNode.Accept;
    if UmqtClient.ClientOk(n) && UmqtClient.Honest(n, from, arrived) {
      UmqtClient.AcceptKeepsClientOk(self, n, from, arrived);
    }
  }

  class UMQT {
    const addr: Addr
    const block: nat
    var topicServers: map<string, seq<Addr>>
    var consumers: set<string>
    var jobs: map<nat, Bytes>
    var notifyDiscovery: set<nat>
    var notifySent: set<nat>
    var notifyFinish: set<nat>
    var discoveryPermits: set<nat>
    var sentPermits: set<nat>
    var finishPermits: set<nat>
    var calls: map<nat, UmqtNode.Call>
    var acceptor: UmqtNode.Acceptor
    var tasks: map<nat, UmqtNode.Task>
    var received: set<(Addr, Msg)>
    var handled: seq<(Addr, Msg)>

    ghost function View(): UmqtNode.Node
      reads this
    {
      UmqtNode.Node(block, topicServers, consumers, jobs, notifyDiscovery, notifySent, notifyFinish,
                    discoveryPermits, sentPermits, finishPermits, calls, acceptor, tasks, received, handled)
    }

    /** The shape of maps and permits, request by request. */
    ghost predicate Ok()
      reads this
    {
      UmqtClient.ClientOk(View())
    }

    constructor (addr: Addr, blockSizeKb: nat)
      ensures Ok() && View() == UmqtNode.NewNode(blockSizeKb * 1024) && this.addr == addr
    {
      this.addr, block := addr, blockSizeKb * 1024;
      topicServers, consumers, jobs := map[], {}, map[];
      notifyDiscovery, notifySent, notifyFinish := {}, {}, {};
      discoveryPermits, sentPermits, finishPermits := {}, {}, {};
      calls, acceptor, tasks := map[], UmqtNode.Ready, map[];
      received, handled := {}, [];
    }

    method AddServer(topic: string, server: Addr)
      modifies this
      ensures View() == UmqtNode.AddServer(old(View()), topic, server)
      ensures old(Ok()) ==> Ok()
    {
      hide UmqtClient.ClientOk;
      Keeps(addr, View(), UmqtNode.DoAddServer(topic, server));
      if topic !in topicServers {
        topicServers := topicServers[topic := []];
      }
      topicServers := topicServers[topic := topicServers[topic] + [server]];
    }

    method On(topic: string)
      modifies this
      ensures View() == UmqtNode.On(old(View()), topic)
      ensures old(Ok()) ==> Ok()
    {
      hide UmqtClient.ClientOk;
      Keeps(addr, View(), UmqtNode.DoOn(topic));
      consumers := consumers + {topic};
    }

    // -------------------------------------------------------------- send

    /** Reads the servers of the topic; without any, `send` returns having changed nothing. */
    method Begin(k: nat, topic: string, bytes: Bytes, reliable: bool) returns (known: bool)
      modifies this
      ensures known <==> topic in old(topicServers)
      ensures View() == if known then UmqtNode.Begin(old(View()), k, topic, bytes, reliable) else old(View())
      ensures old(Ok() && UmqtNode.CanBegin(View(), k, topic, bytes, reliable)) ==> Ok()
    {
      hide UmqtClient.ClientOk, UmqtNode.SizedSend;
      if UmqtNode.CanBegin(View(), k, topic, bytes, reliable) {
        Keeps(addr, View(), UmqtNode.DoBegin(k, topic, bytes, reliable));
      }
      known := topic in topicServers;
      if known {
        calls := calls[k := UmqtNode.Call(topic, bytes, reliable, topicServers[topic], UmqtNode.AtJobs)];
      }
    }

    method InsertJob(k: nat)
      requires UmqtNode.In(View(), k, UmqtNode.AtJobs)
      modifies this
      ensures View() == UmqtNode.InsertJob(old(View()), k)
      ensures old(Ok()) ==> Ok()
    {
      hide UmqtClient.ClientOk;
      Keeps(addr, View(), UmqtNode.DoInsertJob(k));
      jobs := jobs[k := calls[k].bytes];
      calls := calls[k := calls[k].(pc := UmqtNode.AtDiscovery)];
    }

    method InsertDiscovery(k: nat)
      requires UmqtNode.In(View(), k, UmqtNode.AtDiscovery)
      modifies this
      ensures View() == UmqtNode.InsertDiscovery(old(View()), k)
      ensures old(Ok()) ==> Ok()
    {
      hide UmqtClient.ClientOk;
      Keeps(addr, View(), UmqtNode.DoInsertDiscovery(k));
      notifyDiscovery := notifyDiscovery + {k};
      if calls[k].reliable {
        calls := calls[k := calls[k].(pc := UmqtNode.AtSent)];
      } else {
        calls := calls[k := calls[k].(pc := UmqtNode.Waiting(calls[k]))];
      }
    }

    method InsertSent(k: nat)
      requires UmqtNode.In(View(), k, UmqtNode.AtSent)
      modifies this
      ensures View() == UmqtNode.InsertSent(old(View()), k)
      ensures old(Ok()) ==> Ok()
    {
      hide UmqtClient.ClientOk;
      Keeps(addr, View(), UmqtNode.DoInsertSent(k));
      notifySent := notifySent + {k};
      calls := calls[k := calls[k].(pc := UmqtNode.AtFinish)];
    }

    method InsertFinish(k: nat)
      requires UmqtNode.In(View(), k, UmqtNode.AtFinish)
      modifies this
      ensures View() == UmqtNode.InsertFinish(old(View()), k)
      ensures old(Ok()) ==> Ok()
    {
      hide UmqtClient.ClientOk;
      Keeps(addr, View(), UmqtNode.DoInsertFinish(k));
      notifyFinish := notifyFinish + {k};
      calls := calls[k := calls[k].(pc := UmqtNode.Waiting(calls[k]))];
    }

    method Tick(k: nat)
      requires UmqtNode.IsWaiting(View(), k)
      modifies this
      ensures View() == UmqtNode.Tick(old(View()), k)
      ensures old(Ok()) ==> Ok()
    {
      hide UmqtClient.ClientOk;
      Keeps(addr, View(), UmqtNode.DoTick(k));
      calls := calls[k := calls[k].(pc := UmqtNode.Inviting(0))];
    }

    /** The next `send_to` of the invitation loop. */
    method SendInvite(k: nat) returns (out: seq<Datagram>)
      requires UmqtNode.CanInvite(View(), k)
      modifies this
      ensures View() == UmqtNode.SendInvite(addr, old(View()), k).0
      ensures out == OnWire(UmqtNode.SendInvite(addr, old(View()), k).1)
      ensures old(Ok()) ==> Ok()
    {
      hide UmqtClient.ClientOk;
      Keeps(addr, View(), UmqtNode.DoInvite(k));
      hide Encode, Frame, UmqtNode.Emit;
      var c := calls[k];
      var buff := BuildFrame(UmqtHeader(Show(k), "i", c.reliable, c.topic), []);
      out := SendTo(c.servers[c.pc.next], buff);
      calls := calls[k := c.(pc := UmqtNode.Inviting(c.pc.next + 1))];
      assert buff == Encode(UmqtNode.InviteMsg(k, c)) by {
        EncodeIs(UmqtNode.InviteMsg(k, c));
      }
      EmitOnWire(UmqtNode.Packet(addr, c.servers[c.pc.next], UmqtNode.InviteMsg(k, c)));
    }

    method Discovered(k: nat)
      requires UmqtNode.IsWaiting(View(), k) && k in discoveryPermits
      modifies this
      ensures View() == UmqtNode.Discovered(old(View()), k)
      ensures old(Ok()) ==> Ok()
    {
      hide UmqtClient.ClientOk;
      Keeps(addr, View(), UmqtNode.DoDiscovered(k));
      discoveryPermits := discoveryPermits - {k};
      var pc := if calls[k].reliable then UmqtNode.AwaitFinish else UmqtNode.Returned;
      calls := calls[k := calls[k].(pc := pc)];
    }

    method Finished(k: nat)
      requires UmqtNode.In(View(), k, UmqtNode.AwaitFinish) && k in finishPermits
      modifies this
      ensures View() == UmqtNode.Finished(old(View()), k)
      ensures old(Ok()) ==> Ok()
    {
      hide UmqtClient.ClientOk;
      Keeps(addr, View(), UmqtNode.DoFinished(k));
      finishPermits := finishPermits - {k};
      calls := calls[k := calls[k].(pc := UmqtNode.Returned)];
    }

    // -------------------------------------------------------------- acceptor

    /** `recv_from` into the block buffer and a fresh `UMQTReq`. */
    method Receive(datagram: Bytes) returns (arrived: Option<Msg>)
      ensures arrived == Decode(Cut(block, datagram))
    {
      hide ReadBody;
      var buffer := if |datagram| <= block then datagram else datagram[..block];
      var req := new UMQTReq();
      req.Add(buffer);
      assert [] + buffer == buffer;
      var o := req.ReadBlock();
      if o != Framing.Ready {
        return None;
      }
      return Some(Msg(KindOf(req.prefix), req.requestId, req.reliable, req.topic, req.binary));
    }

    /** The first section of the `v` arm. */
    method AcceptVote(from: Addr, m: Msg)
      modifies this
      ensures View() == UmqtNode.AcceptVote(old(View()), from, m)
    {
      var k := IdOf(m.id);
      if k in notifyDiscovery {
        notifyDiscovery := notifyDiscovery - {k};
        discoveryPermits := discoveryPermits + {k};
        acceptor := UmqtNode.TakingJob(k, from, m);
      }
    }

    /** The first section of the `x` arm. */
    method AcceptAck(m: Msg)
      modifies this
      ensures View() == UmqtNode.AcceptAck(old(View()), m)
    {
      var k := IdOf(m.id);
      if k in notifyFinish {
        notifyFinish := notifyFinish - {k};
        finishPermits := finishPermits + {k};
        acceptor := UmqtNode.DroppingSent(k);
      }
    }

    method Accept(from: Addr, datagram: Bytes) returns (out: seq<Datagram>)
      requires acceptor.Ready?
      modifies this
      ensures var r := UmqtNode.Accept(addr, old(View()), from, Decode(Cut(block, datagram)));
        View() == r.0 && out == OnWire(r.1)
      ensures old(Ok() && UmqtClient.Honest(View(), from, Decode(Cut(block, datagram)))) ==> Ok()
    {
      hide Decode, Encode, UmqtClient.ClientOk, UmqtClient.Honest, UmqtNode.AcceptVote, UmqtNode.AcceptAck,
        UmqtNode.Emit;
      AcceptKeeps(addr, View(), from, Decode(Cut(block, datagram)));
      out := [];
      var arrived := Receive(datagram);
      if arrived.None? {
        return;
      }
      var m := arrived.value;
      match m.kind
      case Invite =>
        var buff := EncodeMsg(UmqtNode.Answer(Volunteer, m));
        out := SendTo(from, buff);
        EmitOnWire(UmqtNode.Packet(addr, from, UmqtNode.Answer(Volunteer, m)));
      case Volunteer =>
        AcceptVote(from, m);
      case Ack =>
        AcceptAck(m);
      case Data =>
        received := received + {(from, m)};
        acceptor := UmqtNode.Dispatching(from, m);
        if m.reliable {
          var buff := EncodeMsg(UmqtNode.Answer(Ack, m));
          out := SendTo(from, buff);
          EmitOnWire(UmqtNode.Packet(addr, from, UmqtNode.Answer(Ack, m)));
        }
    }

    method TakeJob()
      requires acceptor.TakingJob?
      modifies this
      ensures View() == UmqtNode.TakeJob(old(View()))
      ensures old(Ok()) ==> Ok()
    {
      hide UmqtClient.ClientOk;
      Keeps(addr, View(), UmqtNode.DoTakeJob);
      var k, from, vote := acceptor.k, acceptor.from, acceptor.vote;
      acceptor := UmqtNode.Ready;
      if k !in jobs {
        return;
      }
      var data := UmqtNode.DataMsg(vote, jobs[k]);
      jobs := jobs - {k};
      if vote.reliable {
        acceptor := UmqtNode.GettingSent(k, from, data);
      } else {
        tasks := tasks[k := UmqtNode.Task(from, data, true)];
      }
    }

    method GetSent()
      requires acceptor.GettingSent?
      modifies this
      ensures View() == UmqtNode.GetSent(old(View()))
      ensures old(Ok()) ==> Ok()
    {
      hide UmqtClient.ClientOk;
      Keeps(addr, View(), UmqtNode.DoGetSent);
      var k, from, data := acceptor.k, acceptor.from, acceptor.data;
      acceptor := UmqtNode.Ready;
      if k in notifySent {
        tasks := tasks[k := UmqtNode.Task(from, data, true)];
      }
    }

    method DropSent()
      requires acceptor.DroppingSent?
      modifies this
      ensures View() == UmqtNode.DropSent(old(View()))
      ensures old(Ok()) ==> Ok()
    {
      hide UmqtClient.ClientOk;
      Keeps(addr, View(), UmqtNode.DoDropSent);
      var k := acceptor.k;
      acceptor := UmqtNode.Ready;
      if k in notifySent {
        notifySent := notifySent - {k};
        sentPermits := sentPermits + {k};
      }
    }

    method Dispatch()
      requires acceptor.Dispatching?
      modifies this
      ensures View() == UmqtNode.Dispatch(old(View()))
      ensures old(Ok()) ==> Ok()
    {
      hide UmqtClient.ClientOk;
      Keeps(addr, View(), UmqtNode.DoDispatch);
      if acceptor.data.topic in consumers {
        handled := handled + [(acceptor.from, acceptor.data)];
      }
      acceptor := UmqtNode.Ready;
    }

    // -------------------------------------------------------------- spawned tasks

    method Transmit(k: nat) returns (out: seq<Datagram>)
      requires UmqtNode.Running(View(), k)
      modifies this
      ensures View() == UmqtNode.Transmit(addr, old(View()), k).0
      ensures out == OnWire(UmqtNode.Transmit(addr, old(View()), k).1)
      ensures old(Ok()) ==> Ok()
    {
      hide UmqtClient.ClientOk;
      Keeps(addr, View(), UmqtNode.DoTransmit(k));
      hide Encode, UmqtNode.Emit;
      var t := tasks[k];
      var buff := EncodeMsg(t.data);
      out := SendTo(t.dst, buff);
      EmitOnWire(UmqtNode.Packet(addr, t.dst, t.data));
      if !t.data.reliable {
        tasks := tasks[k := t.(alive := false)];
      }
    }

    method Stop(k: nat)
      requires UmqtNode.Running(View(), k) && k in sentPermits
      modifies this
      ensures View() == UmqtNode.Stop(old(View()), k)
      ensures old(Ok()) ==> Ok()
    {
      hide UmqtClient.ClientOk;
      if UmqtClient.ClientOk(View()) {
        UmqtClient.PermitIsReliable(View(), k);
        Keeps(addr, View(), UmqtNode.DoStop(k));
      }
      sentPermits := sentPermits - {k};
      tasks := tasks[k := tasks[k].(alive := false)];
    }
  }

  lemma EncodeIs(m: Msg)
    ensures Encode(m) == Frame(UmqtText(HeaderOf(m)), m.bytes)
  {
  }
}
