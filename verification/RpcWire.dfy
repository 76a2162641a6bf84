/** RPC messages and their frames, as `send*` and `push*` build them and both consumers decode them. */
module RpcWire {
  import opened Common
  import opened Decimal
  import opened Decoding
  import opened Framing
  import opened Headers
  import opened HeaderSizes
  import opened Json
  import Utf8

  datatype RpcMsg = RpcMsg(topic: string, requestId: nat, payload: Json, reliable: bool, bytes: Bytes)

  function TextOf(m: RpcMsg): Bytes {
    RpcText(m.topic, m.requestId, m.payload, m.reliable)
  }

  function Encode(m: RpcMsg): Bytes {
    Frame(TextOf(m), m.bytes)
  }

  /** Ids are `u128` and lengths are `usize` values. */
  predicate Sized(m: RpcMsg) {
    m.requestId <= U128_MAX && |TextOf(m)| <= USIZE_MAX && |m.bytes| <= USIZE_MAX
  }

  /** What a consumer gets out of a frame: request id, context and bytes. */
  datatype Content = Content(requestId: nat, ctx: Json, bytes: Bytes)

  function Decode(frame: Bytes): Option<Content> {
    match ReadBlock(ReadRpc, Idle(RPC_BLANK, frame))
    case (s, Ready) => Some(Content(s.header.requestId, s.header.ctx, s.binary))
    case (_, _) => None
  }

  /** Every frame, byte by byte: both lengths, the header text, the bytes. */
  lemma OnTheWire(m: RpcMsg)
    ensures var text := "{\"payload\":" + Print(m.payload) +
              ",\"reliable\":" + (if m.reliable then "true" else "false") +
              ",\"request_id\":" + ("\"" + Show(m.requestId) + "\"") + ",\"topic\":" + Quote(m.topic) + "}";
      Encode(m) == Utf8.Encode(Show(|Utf8.Encode(text)|) + "+" + Show(|m.bytes|) + ":" + text) + m.bytes
  {
    hide Quote, Print, RpcText, Show, Utf8.Encode;
    RpcTextIs(m.topic, m.requestId, m.payload, m.reliable);
    var text := RpcLiteral(m.topic, m.requestId, m.payload, m.reliable);
    Utf8.EncodeAppend(Show(|Utf8.Encode(text)|) + "+" + Show(|m.bytes|) + ":", text);
  }

  /** A consumer recovers exactly what was sent, for every byte string and every payload that nests at most 126
      deep; a frame with a deeper payload is refused. */
  lemma DecodeEncode(m: RpcMsg)
    requires Sized(m)
    ensures Decode(Encode(m)) ==
      if Depth(m.payload, true) <= 126 then Some(Content(m.requestId, m.payload, m.bytes)) else None
  {
    hide ReadBody, Frame, RpcText, Wire, Depth;
    var w := Message(TextOf(m), m.bytes, RpcHeader(m.requestId, m.payload));
    ReadRpcText(m.topic, m.requestId, m.payload, m.reliable);
    TextNonEmpty(m);
    assert Encode(m) + [] == Encode(m);
    assert Encode(m) == Wire(w) by { WireIs(m, w); }
    if Depth(m.payload, true) <= 126 {
      RoundTrip(ReadRpc, w, RPC_BLANK, []);
    } else {
      RejectedFrame(ReadRpc, TextOf(m), m.bytes, RPC_BLANK, []);
    }
  }

  lemma TextNonEmpty(m: RpcMsg)
    ensures TextOf(m) != []
  {
  }

  lemma WireIs(m: RpcMsg, w: Message<RpcHeader>)
    requires w.json == TextOf(m) && w.bin == m.bytes
    ensures Encode(m) == Wire(w)
  {
  }

  // ---------------------------------------------------------------- decoders kept across frames

  /** A decoder kept across frames reads the next one right after a failure if and only if the failure was one
      of the length header. */
  lemma RpcRecoversIff(s: Decoder<RpcHeader>, m: RpcMsg)
    requires Sized(m) && Shallow(m.payload) && ReadBlock(ReadRpc, s).1.Failed?
    ensures var (s', o) := ReadBlock(ReadRpc, s);
            var w := Message(TextOf(m), m.bytes, RpcHeader(m.requestId, m.payload));
      ReadBlock(ReadRpc, Add(s', Encode(m)))
        == (Complete(w, []).(binary := if m.bytes == [] then s.binary else m.bytes), Ready)
      <==> HeaderError(o.error)
  {
    hide ReadBlock, ReadRpc, RpcText, Encode, Wire;
    var w := Message(TextOf(m), m.bytes, RpcHeader(m.requestId, m.payload));
    forall t: Bytes | t != [] && 48 <= t[0] < 58 ensures !ReadRpc(t).Fields? {
      DigitTextIsNumber(t);
    }
    ReadRpcText(m.topic, m.requestId, m.payload, m.reliable);
    TextNonEmpty(m);
    WireIs(m, w);
    RecoversIff(ReadRpc, s, w);
  }

  // ---------------------------------------------------------------- sizes

  /** A response that returns payload and bytes of its request has a size whenever the request has. */
  lemma ResponseSized(topic: string, k: nat, payload: Json, reliable: bool, bytes: Bytes)
    requires Sized(RpcMsg("req:" + topic, k, payload, reliable, bytes))
    ensures Sized(RpcMsg("res:" + topic, k, payload, reliable, bytes))
  {
    hide RpcText;
    ResponseSize(topic, k, payload, reliable);
  }

  /** A simple sufficient bound. */
  lemma SmallSized(m: RpcMsg)
    requires m.requestId <= U128_MAX && |m.bytes| <= USIZE_MAX
    requires 4 * |Print(m.payload)| + 24 * (|Show(m.requestId)| + |m.topic|) + 60 <= USIZE_MAX
    ensures Sized(m)
  {
    hide RpcText, Show, Print;
    RpcTextSize(m.topic, m.requestId, m.payload, m.reliable);
    QuotedSizeBound(m.topic);
    QuotedSizeBound(Show(m.requestId));
    Utf8.EncodeLength(Print(m.payload));
  }
}
