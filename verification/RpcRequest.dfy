/** `RPCReq`, the mutable decoder of the RPC consumers. */
module RpcRequest {
  import opened Common
  import opened Framing
  import opened Headers
  import opened Json

  class RPCReq {
    var hasBody: bool
    var hasMeta: bool
    var requestId: nat
    var ctx: Json
    var buff: Bytes
    var binary: Bytes
    var binaryLength: nat
    var jsonLength: nat

    /** The decoder value these fields stand for. */
    ghost function View(): Decoder<RpcHeader>
      reads this
    {
      Decoder(buff, hasMeta, hasBody, jsonLength, binaryLength, binary,
              RpcHeader(requestId, ctx))
    }

    constructor ()
      ensures View() == Idle(RPC_BLANK, [])
    {
      hasBody, hasMeta := false, false;
      requestId, ctx := 0, EMPTY_CTX;
      buff, binary := [], [];
      binaryLength, jsonLength := 0, 0;
    }

    method Add(block: Bytes)
      modifies this
      ensures View() == Framing.Add(old(View()), block)
    {
      buff := buff + block;
    }

    method ReadMeta(metaEnd: nat) returns (e: Option<Error>)
      requires metaEnd <= |buff|
      modifies this
      ensures (View(), e) == Framing.ReadMeta(old(View()), metaEnd)
    {
      var meta := buff[..metaEnd];
      var pos := Position(meta, PLUS);
      if pos.None? {
        return Some(MissingPlus);
      }
      var json := ParseLength(meta[..pos.value]);
      if json.None? {
        return Some(BadMeta);
      }
      jsonLength := json.value;
      var bin := ParseLength(meta[pos.value + 1..]);
      if bin.None? {
        return Some(BadMeta);
      }
      binaryLength := bin.value;
      return None;
    }

    /** The part of `read_body` that runs until the length header is known. */
    method ReadHeader() returns (done: Option<Outcome>)
      modifies this
      ensures MetaStage(old(View())) ==
        if done.Some? then Stop(View(), done.value) else Go(View())
    {
      hide Framing.ReadMeta, IndexOf, ParseLength;
      if !hasMeta {
        var metaEnd := Position(buff, COLON);
        if metaEnd.None? {
          if |buff| > META_LIMIT {
            buff := [];
            return Some(Failed(MetaTooLong));
          }
          return Some(NotYet);
        }
        var e := ReadMeta(metaEnd.value);
        if e.Some? {
          buff := [];
          return Some(Failed(e.value));
        }
        hasMeta := true;
        buff := buff[metaEnd.value + 1..];
      }
      return None;
    }

    method ReadBody() returns (o: Outcome)
      modifies this
      ensures (View(), o) == Framing.ReadBody(ReadRpc, old(View()))
    {
      hide MetaStage, ReadRpc;
      var done := ReadHeader();
      if done.Some? {
        return done.value;
      }
      if jsonLength != 0 && |buff| >= jsonLength {
        match ReadRpc(buff[..jsonLength])
        case NotJson =>
          buff := [];
          return Failed(BadJson);
        case NotMessage =>
          return Failed(BadMessage);
        case Fields(h) =>
          requestId, ctx := h.requestId, h.ctx;
          buff := buff[jsonLength..];
          if binaryLength == 0 {
            hasBody := true;
            return Ready;
          }
      }
      if binaryLength != 0 && |buff| >= binaryLength {
        binary := buff[..binaryLength];
        hasBody := true;
        buff := buff[binaryLength..];
        return Ready;
      }
      return NotYet;
    }

    method ReadBlock() returns (o: Outcome)
      modifies this
      ensures (View(), o) == Framing.ReadBlock(ReadRpc, old(View()))
    {
      hide Framing.ReadBody;
      if !hasBody {
        o := ReadBody();
        return;
      }
      return Ready;
    }

    /** The request id outlives the reset. */
    method Reset()
      modifies this
      ensures View() == Framing.Reset(old(View()), ResetRpc(old(View()).header))
      ensures !hasBody && !hasMeta && jsonLength == 0 && binaryLength == 0 && binary == [] && buff == old(buff)
      ensures requestId == old(requestId) && Print(ctx) == BLANK_TEXT
    {
      hasBody, hasMeta := false, false;
      ctx := EMPTY_CTX;
      BlankText();
      binary := [];
      binaryLength, jsonLength := 0, 0;
    }
  }
}
