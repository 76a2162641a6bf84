/** How many bytes the two JSON headers take. */
module HeaderSizes {
  import opened Decimal
  import opened Headers
  import opened Json
  import Utf8

  function Size(s: string): nat {
    |Utf8.Encode(s)|
  }

  /** Bytes of a quoted string. */
  function QuotedSize(s: string): nat {
    Size(Quote(s))
  }

  lemma SizeAppend(s: string, t: string)
    ensures Size(s + t) == Size(s) + Size(t)
  {
    Utf8.EncodeAppend(s, t);
  }

  lemma QuotedSizeIs(s: string)
    ensures QuotedSize(s) == 2 + Size(Escape(s))
  {
    SizeAppend(['"'] + Escape(s), ['"']);
    SizeAppend(['"'], Escape(s));
    assert Size(['"']) == 1;
  }

  lemma QuotedSizeBound(s: string)
    ensures 2 <= QuotedSize(s) <= 24 * |s| + 2
  {
    QuotedSizeIs(s);
    EscapeLength(s);
    Utf8.EncodeLength(Escape(s));
  }

  predicate PlainAscii(s: string) {
    Utf8.Ascii(s) && forall i | 0 <= i < |s| :: Plain(s[i])
  }

  /** Text without escapes or wide characters takes one byte a character. */
  lemma QuotedSizePlain(s: string)
    requires PlainAscii(s)
    ensures QuotedSize(s) == |s| + 2
  {
    QuotedSizeIs(s);
    EscapePlain(s);
    Utf8.EncodeAscii(s);
  }

  lemma QuotedSizeAppend(s: string, t: string)
    requires PlainAscii(s)
    ensures QuotedSize(s + t) == |s| + QuotedSize(t)
  {
    QuotedSizeIs(s + t);
    QuotedSizeIs(t);
    EscapeAppend(s, t);
    EscapePlain(s);
    SizeAppend(s, Escape(t));
    Utf8.EncodeAscii(s);
  }

  lemma BoolSize(b: bool)
    ensures Size(Print(Bool(b))) == if b then 4 else 5
  {
    Utf8.EncodeAscii("true");
    Utf8.EncodeAscii("false");
  }

  // ---------------------------------------------------------------- objects of four members

  function MemberSize(m: Member): nat {
    QuotedSize(m.key) + 1 + Size(Print(m.value))
  }

  lemma MemberPrinted(m: Member)
    ensures Size(Quote(m.key) + [':'] + Print(m.value)) == MemberSize(m)
  {
    SizeAppend(Quote(m.key) + [':'], Print(m.value));
    SizeAppend(Quote(m.key), [':']);
    assert Size([':']) == 1;
  }

  lemma {:induction false} MembersSize(ms: seq<Member>)
    requires ms != []
    ensures Size(PrintMembers(ms)) == MemberSize(ms[0]) + if |ms| == 1 then 0 else 1 + Size(PrintMembers(ms[1..]))
  {
    hide Size, Print, Quote, MemberSize;
    var head := Quote(ms[0].key) + [':'] + Print(ms[0].value);
    MemberPrinted(ms[0]);
    if |ms| > 1 {
      SizeAppend(head + [','], PrintMembers(ms[1..]));
      SizeAppend(head, [',']);
      CommaSize();
    }
  }

  lemma CommaSize()
    ensures Size([',']) == 1 && Size(['{']) == 1 && Size(['}']) == 1
  {
  }

  lemma FourSize(a: Member, b: Member, c: Member, d: Member)
    ensures |ToBytes(Obj([a, b, c, d]))| == 5 + MemberSize(a) + MemberSize(b) + MemberSize(c) + MemberSize(d)
  {
    hide MemberSize, PrintMembers;
    var ms := [a, b, c, d];
    MembersSize(ms);
    assert ms[1..] == [b, c, d];
    MembersSize([b, c, d]);
    assert [b, c, d][1..] == [c, d];
    MembersSize([c, d]);
    assert [c, d][1..] == [d];
    MembersSize([d]);
    SizeAppend(['{'] + PrintMembers(ms), ['}']);
    SizeAppend(['{'], PrintMembers(ms));
    CommaSize();
  }

  // ---------------------------------------------------------------- the two headers

  lemma StrMember(key: string, s: string)
    requires PlainAscii(key)
    ensures MemberSize(Member(key, Str(s))) == |key| + 3 + QuotedSize(s)
  {
    QuotedSizePlain(key);
  }

  lemma BoolMember(key: string, b: bool)
    requires PlainAscii(key)
    ensures MemberSize(Member(key, Bool(b))) == |key| + 3 + if b then 4 else 5
  {
    QuotedSizePlain(key);
    BoolSize(b);
  }

  lemma ValueMember(key: string, v: Json)
    requires PlainAscii(key)
    ensures MemberSize(Member(key, v)) == |key| + 3 + |ToBytes(v)|
  {
    QuotedSizePlain(key);
  }

  /** The exact length of a UMQT header. */
  lemma UmqtTextSize(h: UmqtHeader)
    ensures |UmqtText(h)| ==
      38 + QuotedSize(h.id) + QuotedSize(h.prefix) + (if h.reliable then 4 else 5) + QuotedSize(h.topic)
  {
    hide ToBytes, MemberSize, QuotedSize;
    var ms := UmqtJson(h).members;
    FourSize(ms[0], ms[1], ms[2], ms[3]);
    StrMember("id", h.id);
    StrMember("prefix", h.prefix);
    BoolMember("reliable", h.reliable);
    StrMember("topic", h.topic);
  }

  /** A bound on the header text: no character takes more than 24 bytes. */
  lemma TextLength(h: UmqtHeader)
    ensures 2 <= |UmqtText(h)| <= 24 * (|h.id| + |h.prefix| + |h.topic|) + 49
  {
    UmqtTextSize(h);
    QuotedSizeBound(h.id);
    QuotedSizeBound(h.prefix);
    QuotedSizeBound(h.topic);
  }

  /** The exact length of an RPC header. */
  lemma RpcTextSize(topic: string, k: nat, payload: Json, reliable: bool)
    ensures |RpcText(topic, k, payload, reliable)| ==
      47 + |ToBytes(payload)| + (if reliable then 4 else 5) + QuotedSize(Show(k)) + QuotedSize(topic)
  {
    hide ToBytes, MemberSize, QuotedSize, Show;
    var ms := RpcJson(topic, k, payload, reliable).members;
    FourSize(ms[0], ms[1], ms[2], ms[3]);
    ValueMember("payload", payload);
    BoolMember("reliable", reliable);
    StrMember("request_id", Show(k));
    StrMember("topic", topic);
  }

  /** A response that returns the payload of its request is as long as the request. */
  lemma ResponseSize(topic: string, k: nat, payload: Json, reliable: bool)
    ensures |RpcText("res:" + topic, k, payload, reliable)| == |RpcText("req:" + topic, k, payload, reliable)|
  {
    hide ToBytes, Show;
    RpcTextSize("res:" + topic, k, payload, reliable);
    RpcTextSize("req:" + topic, k, payload, reliable);
    QuotedSizeAppend("res:", topic);
    QuotedSizeAppend("req:", topic);
  }
}
