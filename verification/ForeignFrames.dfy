/** What the two receivers make of frames that the program itself does not write: any JSON value for a header, or
    no header at all. */
module ForeignFrames {
  import opened Common
  import opened Decoding
  import opened Framing
  import opened Headers
  import opened Json
  import opened LengthHeader
  import RpcWire
  import UmqtWire

  lemma WholeFrame<T>(read: Reader<T>, v: Json, bin: Bytes, h0: T)
    requires |ToBytes(v)| <= USIZE_MAX && |bin| <= USIZE_MAX
    ensures var o := ReadBlock(read, Idle(h0, Frame(ToBytes(v), bin)));
      if read(ToBytes(v)).Fields? then
        o == (Complete(Message(ToBytes(v), bin, read(ToBytes(v)).header), []), Ready)
      else o.1.Failed?
  {
    hide ReadBlock, Frame, ToBytes;
    assert Frame(ToBytes(v), bin) + [] == Frame(ToBytes(v), bin);
    if read(ToBytes(v)).Fields? {
      WireIsFrame(Message(ToBytes(v), bin, read(ToBytes(v)).header));
      RoundTrip(read, Message(ToBytes(v), bin, read(ToBytes(v)).header), h0, []);
    } else {
      RejectedFrame(read, ToBytes(v), bin, h0, []);
    }
  }

  lemma WireIsFrame<T>(m: Message<T>)
    ensures Wire(m) == Frame(m.json, m.bin)
  {
  }

  /** A datagram with any JSON value for a header is a UMQT message exactly if the value nests less than 128 deep
      and is an object with the four keys. Every prefix but the three of control messages makes it data. */
  lemma UmqtFrame(v: Json, bin: Bytes)
    requires |ToBytes(v)| <= USIZE_MAX && |bin| <= USIZE_MAX
    ensures var r := UmqtWire.Decode(Frame(ToBytes(v), bin));
            var complete := HasKey(v, "id") && HasKey(v, "prefix") && HasKey(v, "reliable") && HasKey(v, "topic");
      && (r.Some? <==> Depth(v, true) < 128 && complete)
      && (r.Some? ==> var m := r.value;
            && m.bytes == bin
            && (m.kind.Invite? <==> v.At("prefix") == Str("i")) && (m.kind.Volunteer? <==> v.At("prefix") == Str("v"))
            && (m.kind.Ack? <==> v.At("prefix") == Str("x"))
            && (if v.At("id").Str? then v.At("id") == Str(m.id) else m.id == "")
            && (m.reliable <==> v.At("reliable") == Bool(true))
            && (if v.At("topic").Str? then v.At("topic") == Str(m.topic) else m.topic == ""))
  {
    hide ReadBlock, Frame, ToBytes, Json.Get, ReadUmqt;
    WholeFrame(ReadUmqt, v, bin, UMQT_BLANK);
    UmqtMessageIff(v);
  }

  /** A frame with any JSON value for a header reaches the RPC consumers exactly if the value nests less than 128
      deep and is an object with the three keys; the topic in it is not looked at. */
  lemma RpcFrame(v: Json, bin: Bytes)
    requires |ToBytes(v)| <= USIZE_MAX && |bin| <= USIZE_MAX
    ensures var r := RpcWire.Decode(Frame(ToBytes(v), bin));
      && (r.Some? <==> Depth(v, true) < 128 && HasKey(v, "topic") && HasKey(v, "request_id") && HasKey(v, "payload"))
      && (r.Some? ==> var m := r.value;
            && m.bytes == bin && v.Get("payload") == Some(m.ctx)
            && (if v.At("request_id").Str? then m.requestId == IdOf(v.At("request_id").s) else m.requestId == 0))
  {
    hide ReadBlock, Frame, ToBytes, Json.Get, ReadRpc, IdOf;
    WholeFrame(ReadRpc, v, bin, RPC_BLANK);
    RpcMessageIff(v);
  }

  /** A frame that announces no JSON passes for an unreliable message without id and topic, and for a request
      with id 0 and the blank context; without bytes either, both receivers ignore it. */
  lemma HeaderlessFrame(bin: Bytes)
    requires |bin| <= USIZE_MAX
    ensures UmqtWire.Decode(Frame([], bin)) ==
      if bin == [] then None else Some(UmqtWire.Msg(UmqtWire.Data, "", false, "", bin))
    ensures RpcWire.Decode(Frame([], bin)) ==
      if bin == [] then None else Some(RpcWire.Content(0, EMPTY_CTX, bin))
  {
    hide ReadBlock, Frame;
    assert Frame([], bin) + [] == Frame([], bin);
    EmptyJson(ReadUmqt, UMQT_BLANK, bin, []);
    EmptyJson(ReadRpc, RPC_BLANK, bin, []);
  }
}
