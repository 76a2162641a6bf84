/** UMQT messages, their datagrams, and what a receiver with a finite buffer makes of one. */
module UmqtWire {
  import opened Common
  import opened Decimal
  import opened Decoding
  import opened Framing
  import opened Headers
  import opened HeaderSizes
  import Json
  import Utf8

  /** `i` invites, `v` volunteers, `x` acknowledges; every other prefix is data, as in the acceptor's `_` arm. */
  datatype Kind = Invite | Volunteer | Data | Ack

  function PrefixOf(kind: Kind): string {
    match kind
    case Invite => "i"
    case Volunteer => "v"
    case Data => "_"
    case Ack => "x"
  }

  function KindOf(prefix: string): Kind {
    if prefix == "i" then Invite
    else if prefix == "v" then Volunteer
    else if prefix == "x" then Ack
    else Data
  }

  datatype Msg = Msg(kind: Kind, id: string, reliable: bool, topic: string, bytes: Bytes)

  function HeaderOf(m: Msg): UmqtHeader {
    UmqtHeader(m.id, PrefixOf(m.kind), m.reliable, m.topic)
  }

  function Encode(m: Msg): Bytes {
    Frame(UmqtText(HeaderOf(m)), m.bytes)
  }

  /** Rust lengths are `usize` values. */
  predicate Sized(m: Msg) {
    |UmqtText(HeaderOf(m))| <= USIZE_MAX && |m.bytes| <= USIZE_MAX
  }

  /** One datagram through a fresh `UMQTReq`. */
  function Decode(datagram: Bytes): Option<Msg> {
    match ReadBlock(ReadUmqt, Idle(UMQT_BLANK, datagram))
    case (s, Ready) => Some(Msg(KindOf(s.header.prefix), s.header.id, s.header.reliable, s.header.topic, s.binary))
    case (_, _) => None
  }

  /** `recv_from` into a buffer of `block` bytes drops the rest of a longer datagram. */
  function Cut(block: nat, datagram: Bytes): Bytes {
    if |datagram| <= block then datagram else datagram[..block]
  }

  function Receive(block: nat, m: Msg): Option<Msg> {
    Decode(Cut(block, Encode(m)))
  }

  /** The largest payload of a UDP datagram over IPv4, 65535 less 28 bytes of headers; `send_to` refuses more. */
  const UDP_MAX: nat := 65_507

  predicate Sendable(m: Msg) {
    |Encode(m)| <= UDP_MAX
  }

  /** The datagram can be sent, and a buffer of `block` bytes takes it whole. */
  predicate Fits(block: nat, m: Msg) {
    Sized(m) && Sendable(m) && |Encode(m)| <= block
  }

  /** What a misread cut frame looks like: header fields still blank, JSON bytes for a payload. */
  predicate Garbled(m: Msg) {
    m.kind == Data && m.id == "" && !m.reliable && m.topic == ""
  }

  lemma FitsIsSendable(block: nat, m: Msg)
    requires Fits(block, m)
    ensures Sendable(m)
  {
  }

  function AsMessage(m: Msg): Message<UmqtHeader> {
    Message(UmqtText(HeaderOf(m)), m.bytes, HeaderOf(m))
  }

  lemma AsMessageValid(m: Msg)
    requires Sized(m)
    ensures Valid(ReadUmqt, AsMessage(m)) && Encode(m) == Wire(AsMessage(m))
  {
    ReadUmqtText(HeaderOf(m));
  }

  /** The letter of a kind. */
  function Letter(kind: Kind): string {
    match kind
    case Invite => "i"
    case Volunteer => "v"
    case Data => "_"
    case Ack => "x"
  }

  /** Every datagram, byte by byte: both lengths, the header text, the bytes. */
  lemma OnTheWire(m: Msg)
    ensures var text := "{\"id\":" + Json.Quote(m.id) + ",\"prefix\":\"" + Letter(m.kind) + "\",\"reliable\":" +
              (if m.reliable then "true" else "false") + ",\"topic\":" + Json.Quote(m.topic) + "}";
      Encode(m) == Utf8.Encode(Show(|Utf8.Encode(text)|) + "+" + Show(|m.bytes|) + ":" + text) + m.bytes
  {
    hide Json.Quote, UmqtText, Show, Utf8.Encode;
    var h := HeaderOf(m);
    UmqtTextIs(h);
    QuotedKey(PrefixOf(m.kind)) by { PrefixIsPlain(m.kind); }
    var text := UmqtLiteral(h);
    Utf8.EncodeAppend(Show(|Utf8.Encode(text)|) + "+" + Show(|m.bytes|) + ":", text);
    assert "{\"id\":" + Json.Quote(m.id) + ",\"prefix\":" + ("\"" + Letter(m.kind) + "\"") + ",\"reliable\":"
        == "{\"id\":" + Json.Quote(m.id) + ",\"prefix\":\"" + Letter(m.kind) + "\",\"reliable\":";
  }

  lemma PrefixIsPlain(kind: Kind)
    ensures forall i | 0 <= i < |PrefixOf(kind)| :: Json.Plain(PrefixOf(kind)[i])
  {
  }

  lemma KindOfPrefix(kind: Kind)
    ensures KindOf(PrefixOf(kind)) == kind
  {
    assert "_" != "i" && "_" != "v" && "_" != "x";
  }

  /** A datagram that fits is received as the message that was sent. */
  lemma ReceiveWhole(block: nat, m: Msg)
    requires Fits(block, m)
    ensures Receive(block, m) == Some(m)
  {
    hide ReadBody, Wire, Frame, UmqtText;
    AsMessageValid(m);
    RoundTrip(ReadUmqt, AsMessage(m), UMQT_BLANK, []);
    assert Encode(m) + [] == Encode(m);
    KindOfPrefix(m.kind);
  }

  /** A cut datagram is dropped, except when the cut lies inside the JSON with at least as many JSON bytes
      as the payload is long: then the blank default arm gets those bytes. */
  lemma ReceiveCut(block: nat, m: Msg)
    requires Sized(m) && block < |Encode(m)|
    ensures var a := block - |Meta(|UmqtText(HeaderOf(m))|, |m.bytes|)|;
      && (Receive(block, m).Some? <==> m.bytes != [] && |m.bytes| <= a < |UmqtText(HeaderOf(m))|)
      && (Receive(block, m).Some? ==>
            Garbled(Receive(block, m).value) &&
            Receive(block, m).value.bytes == UmqtText(HeaderOf(m))[..|m.bytes|])
  {
    hide ReadBody, Wire, Frame, UmqtText;
    AsMessageValid(m);
    Truncated(ReadUmqt, AsMessage(m), UMQT_BLANK, block);
  }

  /** Control frames are prefix-free: cut short they are never answered. */
  lemma ControlCutIsDropped(block: nat, m: Msg)
    requires Sized(m) && m.bytes == [] && block < |Encode(m)|
    ensures Receive(block, m) == None
  {
    ReceiveCut(block, m);
  }

  /** A data frame whose cut spares the JSON is dropped rather than delivered short. */
  lemma DataCutAfterJsonIsDropped(block: nat, m: Msg)
    requires Sized(m) && block < |Encode(m)|
    requires block >= |Meta(|UmqtText(HeaderOf(m))|, |m.bytes|)| + |UmqtText(HeaderOf(m))|
    ensures Receive(block, m) == None
  {
    ReceiveCut(block, m);
  }

  /** Every datagram is received whole, dropped, or garbled. */
  lemma ReceiveCases(block: nat, m: Msg)
    requires Sized(m) && Sendable(m)
    ensures Receive(block, m).Some? ==> Receive(block, m).value == m || Garbled(Receive(block, m).value)
    ensures Receive(block, m) == Some(m) ==> Fits(block, m) || Garbled(m)
  {
    if Fits(block, m) {
      ReceiveWhole(block, m);
    } else {
      ReceiveCut(block, m);
    }
  }

  // ---------------------------------------------------------------- sizes

  /** Every message whose id, topic and bytes are small enough for the buffer and for UDP fits. */
  lemma SmallFits(block: nat, m: Msg)
    requires 24 * (|m.id| + 1 + |m.topic|) + 242 + |m.bytes| <= Min(block, UDP_MAX)
    ensures Fits(block, m)
  {
    hide UmqtText, Meta;
    TextLength(HeaderOf(m));
    MetaLength(|UmqtText(HeaderOf(m))|, |m.bytes|);
  }

  // ---------------------------------------------------------------- the window of the misread datagram

  function InviteOf(m: Msg): Msg {
    Msg(Invite, m.id, m.reliable, m.topic, [])
  }

  /** The header of an invite is as long as that of its data. */
  lemma SameTextSize(m: Msg)
    ensures |UmqtText(HeaderOf(InviteOf(m)))| == |UmqtText(HeaderOf(m))|
  {
    hide UmqtText, QuotedSize;
    UmqtTextSize(HeaderOf(InviteOf(m)));
    UmqtTextSize(HeaderOf(m));
    QuotedSizePlain(PrefixOf(m.kind));
    QuotedSizePlain("i");
  }

  lemma EncodeSize(m: Msg)
    ensures |Encode(m)| ==
      |Show(|UmqtText(HeaderOf(m))|)| + |Show(|m.bytes|)| + 2 + |UmqtText(HeaderOf(m))| + |m.bytes|
  {
    MetaShape(|UmqtText(HeaderOf(m))|, |m.bytes|);
  }

  /** A buffer that took the invite misreads the cut data in a window only: the payload has at least ten bytes
      and the buffer at most 18 more than the invite. */
  lemma MisreadWindow(block: nat, m: Msg)
    requires Sized(m) && Fits(block, InviteOf(m))
    ensures var room := |Encode(InviteOf(m))| + |Show(|m.bytes|)| - 1;
            var meta := |Meta(|UmqtText(HeaderOf(m))|, |m.bytes|)|;
      && (block < |Encode(m)| && Receive(block, m).Some? <==> m.bytes != [] && meta + |m.bytes| <= block < room)
      && (block < room ==> |m.bytes| >= 10 && block <= |Encode(InviteOf(m))| + 18)
  {
    hide UmqtText, Encode, Meta, Receive;
    SameTextSize(m);
    EncodeSize(m);
    EncodeSize(InviteOf(m));
    MetaSize(|UmqtText(HeaderOf(m))|, |m.bytes|);
    ShowUsize(|m.bytes|);
    if block < |Encode(m)| {
      ReceiveCut(block, m);
    }
  }

  lemma MetaSize(j: nat, b: nat)
    ensures |Meta(j, b)| == |Show(j)| + |Show(b)| + 2
  {
    MetaShape(j, b);
  }

  // ---------------------------------------------------------------- decoders kept across frames

  /** A decoder kept across frames reads the next one right after a failure if and only if the failure was one
      of the length header. */
  lemma UmqtRecoversIff(s: Decoder<UmqtHeader>, m: Msg)
    requires Sized(m) && ReadBlock(ReadUmqt, s).1.Failed?
    ensures var (s', o) := ReadBlock(ReadUmqt, s);
      ReadBlock(ReadUmqt, Add(s', Encode(m)))
        == (Complete(AsMessage(m), []).(binary := if m.bytes == [] then s.binary else m.bytes), Ready)
      <==> HeaderError(o.error)
  {
    hide ReadBlock, ReadUmqt, UmqtText, Encode, Wire;
    NoDigitUmqt();
    AsMessageValid(m);
    RecoversIff(ReadUmqt, s, AsMessage(m));
  }

  lemma NoDigitUmqt()
    ensures NoDigitHeader(ReadUmqt)
  {
    forall t: Bytes | t != [] && 48 <= t[0] < 58 ensures !ReadUmqt(t).Fields? {
      DigitTextIsNumber(t);
    }
  }

  /** The frames `1+0:x` and `2+0:{}`, each followed by any whole frame: the second is lost. */
  lemma NextFrameIsLost(m: Msg, bad: Bytes)
    requires Sized(m) && (bad == [120] || bad == [123, 125])
    ensures var (s', o) := ReadBlock(ReadUmqt, Idle(UMQT_BLANK, Frame(bad, [])));
      && o == Failed(if bad == [120] then BadJson else BadMessage)
      && ReadBlock(ReadUmqt, Add(s', Encode(m))) != (Complete(AsMessage(m), []), Ready)
  {
    hide ReadBlock, Encode, UmqtText, ReadUmqt, Frame;
    RejectedTexts();
    RejectedFrame(ReadUmqt, bad, [], UMQT_BLANK, []);
    assert Frame(bad, []) + [] == Frame(bad, []);
    UmqtRecoversIff(Idle(UMQT_BLANK, Frame(bad, [])), m);
  }

  lemma RejectedTexts()
    ensures ReadUmqt([120]).NotJson? && ReadUmqt([123, 125]).NotMessage?
  {
    hide ReadUmqt;
    LetterIsNotJson();
    BracesAreNoMessage();
  }

  lemma LetterIsNotJson()
    ensures ReadUmqt([120]).NotJson?
  {
    hide Json.ParseElems, Json.ParseMembers, Json.ParseChars, Utf8.Decode;
    assert Utf8.Encode("x") == [120];
    Utf8.DecodeEncode("x");
    assert Json.ParseNatural("x") == None;
  }

  lemma BracesAreNoMessage()
    ensures ReadUmqt([123, 125]).NotMessage?
  {
    hide ReadUmqt;
    UmqtMessageIff(Json.Obj([]));
    assert Json.ToBytes(Json.Obj([])) == [123, 125] by { Utf8.EncodeAscii("{}"); }
  }

  /** A concrete datagram that the decoder misreads when it comes in two pieces. */
  lemma TwoPiecesMisread()
    ensures var m := AsMessage(Msg(Data, "1", true, "t", [7]));
      && Valid(ReadUmqt, m) && H(m) + 1 < |Wire(m)|
      && !OnTime(Feed(ReadUmqt, Idle(UMQT_BLANK, []), [Wire(m)[..H(m) + 1], Wire(m)[H(m) + 1..]]).0)
  {
    hide Feed, OnTime, Wire, UmqtText, ReadUmqt, Meta;
    var msg := Msg(Data, "1", true, "t", [7]);
    var m := AsMessage(msg);
    ReadUmqtText(HeaderOf(msg));
    TextLength(HeaderOf(msg));
    ChunkingFails(ReadUmqt, m, UMQT_BLANK, H(m) + 1);
  }
}
