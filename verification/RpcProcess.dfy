/** The mutable side of RPC: `MAP`, the consumer table, the channels and the spawned consumers as fields,
    with real frames. Each method is proved to be the corresponding step of `Rpc`. */
module RpcProcess {
  import opened Common
  import opened Decimal
  import opened Framing
  import opened Headers
  import opened Json
  import opened RpcRequest
  import opened RpcWire
  import Rpc
  import Utf8

  /** The encoder written out in the six `send` and three `push` forms. */
  method BuildFrame(m: RpcMsg) returns (buff: Bytes)
    ensures buff == Encode(m)
  {
    buff := [];
    var message := ToBytes(RpcJson(m.topic, m.requestId, m.payload, m.reliable));
    var meta := Utf8.Encode(Show(|message|) + ['+'] + Show(|m.bytes|) + [':']);
    buff := buff + meta;
    buff := buff + message;
    buff := buff + m.bytes;
  }

  /** One frame through a fresh `RPCReq`. */
  method ReadFrame(frame: Bytes) returns (content: Option<Content>)
    ensures content == Decode(frame)
  {
    hide ReadBody;
    var req := new RPCReq();
    req.Add(frame);
    assert [] + frame == frame;
    var o := req.ReadBlock();
    if o != Framing.Ready {
      return None;
    }
    return Some(Content(req.requestId, req.ctx, req.binary));
  }

  /** A consumer on the runtime with the bytes it was spawned with. */
  datatype Spawned = Spawned(consumer: Rpc.Consumer, frame: Bytes, ran: bool)

  class Process {
    var consumers: map<(Rpc.Instance, string), Rpc.Consumer>
    var waiting: set<nat>
    var calls: map<nat, Rpc.Call>
    var channels: map<nat, seq<Rpc.Delivery>>
    var spawned: seq<Spawned>
    var invocations: seq<Rpc.Invocation>
    ghost var tasks: seq<Rpc.Task>

    /** The spawned frames are the encodings of the messages they stand for. */
    ghost predicate Valid()
      reads this
    {
      && |spawned| == |tasks|
      && forall i | 0 <= i < |tasks| ::
          spawned[i] == Spawned(tasks[i].consumer, Encode(tasks[i].msg), tasks[i].ran)
    }

    ghost function View(): Rpc.State
      reads this
    {
      Rpc.State(consumers, waiting, calls, channels, tasks, invocations)
    }

    constructor ()
      ensures Valid() && View() == Rpc.INIT
    {
      consumers, waiting, calls, channels := map[], {}, map[], map[];
      spawned, invocations, tasks := [], [], [];
    }

    method OnRequests(rpc: Rpc.Instance, topic: string)
      requires Valid()
      modifies this
      ensures Valid() && View() == Rpc.Next(old(View()), Rpc.OnRequests(rpc, topic))
    {
      consumers := consumers[(rpc, "req:" + topic) := Rpc.Requests(rpc, "res:" + topic)];
    }

    method OnResponses(rpc: Rpc.Instance, topic: string)
      requires Valid()
      modifies this
      ensures Valid() && View() == Rpc.Next(old(View()), Rpc.OnResponses(rpc, topic))
    {
      consumers := consumers[(rpc, "res:" + topic) := Rpc.Responses];
    }

    method Begin(k: nat, rpc: Rpc.Instance, topic: string, payload: Json, bytes: Bytes, reliable: bool)
      requires Valid() && Rpc.Enabled(View(), Rpc.Begin(k, rpc, topic, payload, bytes, reliable))
      modifies this
      ensures Valid() && View() == Rpc.Next(old(View()), Rpc.Begin(k, rpc, topic, payload, bytes, reliable))
    {
      hide Sized;
      calls := calls[k := Rpc.Call(rpc, topic, payload, bytes, reliable, Rpc.AtMap)];
    }

    /** `MAP.insert(request_id, tx)`. */
    method Register(k: nat)
      requires Valid() && Rpc.Enabled(View(), Rpc.Register(k))
      modifies this
      ensures Valid() && View() == Rpc.Next(old(View()), Rpc.Register(k))
    {
      waiting := waiting + {k};
      calls := calls[k := calls[k].(pc := Rpc.AtProducer)];
    }

    /** The default producer. */
    method Produce(rpc: Rpc.Instance, topic: string, frame: Bytes, ghost m: RpcMsg, ghost origin: Rpc.Origin)
      requires Valid() && frame == Encode(m) && topic == m.topic
      modifies this`spawned, this`tasks
      ensures Valid() && View() == Rpc.Spawn(old(View()), rpc, m, origin)
    {
      hide Encode;
      if (rpc, topic) in consumers {
        spawned := spawned + [Spawned(consumers[(rpc, topic)], frame, false)];
        tasks := tasks + [Rpc.Task(consumers[(rpc, topic)], m, origin, false)];
      }
    }

    method SendRequest(k: nat)
      requires Valid() && Rpc.Enabled(View(), Rpc.Produce(k))
      modifies this
      ensures Valid() && View() == Rpc.Next(old(View()), Rpc.Produce(k))
    {
      hide Encode, Sized;
      var c := calls[k];
      var m := RpcMsg("req:" + c.topic, k, c.payload, c.reliable, c.bytes);
      var frame := BuildFrame(m);
      calls := calls[k := c.(pc := Rpc.Receiving)];
      Produce(c.rpc, m.topic, frame, m, Rpc.FromCall(k));
    }

    method Push(v: nat, payload: Json, bytes: Bytes, reliable: bool)
      requires Valid() && Rpc.Enabled(View(), Rpc.Push(v, payload, bytes, reliable))
      modifies this
      ensures Valid() && View() == Rpc.Next(old(View()), Rpc.Push(v, payload, bytes, reliable))
    {
      hide Encode, Sized;
      var stream := invocations[v];
      var m := RpcMsg(stream.resTopic, stream.requestId, payload, reliable, bytes);
      var frame := BuildFrame(m);
      Produce(stream.rpc, stream.resTopic, frame, m, Rpc.FromPush(v));
    }

    /** A spawned consumer runs: decode, then start the user action or answer the waiting caller. */
    method RunTask(i: nat)
      requires Valid() && Rpc.Enabled(View(), Rpc.RunTask(i))
      modifies this
      ensures Valid() && View() == Rpc.Next(old(View()), Rpc.RunTask(i))
    {
      hide Encode, Decode, Sized;
      var t := spawned[i];
      spawned := spawned[i := t.(ran := true)];
      tasks := tasks[i := tasks[i].(ran := true)];
      var content := ReadFrame(t.frame);
      if content.None? {
        return;
      }
      var c := content.value;
      match t.consumer
      case Requests(rpc, resTopic) =>
        invocations := invocations + [Rpc.Invocation(rpc, c.requestId, resTopic, c.ctx, c.bytes, i)];
      case Responses =>
        if c.requestId in waiting {
          waiting := waiting - {c.requestId};
          var sent := if c.requestId in channels then channels[c.requestId] else [];
          channels := channels[c.requestId := sent + [Rpc.Delivery(c.ctx, c.bytes, i)]];
        }
    }

    /** `rx.recv()`. */
    method Receive(k: nat) returns (ctx: Json, bytes: Bytes)
      requires Valid() && Rpc.Enabled(View(), Rpc.Receive(k))
      modifies this
      ensures Valid() && View() == Rpc.Next(old(View()), Rpc.Receive(k))
      ensures View().calls[k].pc == Rpc.Done(ctx, bytes)
    {
      ctx, bytes := channels[k][0].ctx, channels[k][0].bytes;
      calls := calls[k := calls[k].(pc := Rpc.Done(ctx, bytes))];
    }
  }
}
