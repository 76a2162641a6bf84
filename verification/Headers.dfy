/** The two JSON headers: what UMQT and RPC write into a frame and what they take out of one. */
module Headers {
  import opened Common
  import opened Decimal
  import opened Framing
  import opened Json
  import Utf8

  /** `parse::<u128>().unwrap_or(0)`. */
  function IdOf(s: string): nat {
    match ParseUnsigned(s, U128_MAX)
    case Some(n) => n
    case None => 0
  }

  /** What an id field reads as: the value of its digits after an optional sign, if they are a 128-bit number. */
  lemma IdOfIs(id: string)
    ensures var d := if id != "" && id[0] == '+' then id[1..] else id;
      IdOf(id) ==
        if d != "" && (forall i | 0 <= i < |d| :: '0' <= d[i] <= '9') &&
           Value(d) <= 340282366920938463463374607431768211455
        then Value(d) else 0
  {
    var d := if id != "" && id[0] == '+' then id[1..] else id;
    assert Digits(d) <==> forall i | 0 <= i < |d| :: '0' <= d[i] <= '9';
  }

  lemma IdOfShow(k: nat)
    requires k <= U128_MAX
    ensures IdOf(Show(k)) == k
  {
    ParseShow(k, U128_MAX);
  }

  /** A printed id is found again exactly if it is a 128-bit number, else 0 is. */
  lemma IdOfShowIff(k: nat)
    ensures IdOf(Show(k)) == if k <= 340282366920938463463374607431768211455 then k else 0
  {
    ParseShow(k, U128_MAX);
  }

  predicate HasKey(v: Json, key: string) {
    v.Obj? && exists i | 0 <= i < |v.members| :: v.members[i].key == key
  }

  lemma {:induction false} LastIff(ms: seq<Member>, key: string)
    ensures Last(ms, key).Some? <==> exists i | 0 <= i < |ms| :: ms[i].key == key
  {
    if ms != [] {
      LastIff(ms[..|ms| - 1], key);
      if i :| 0 <= i < |ms| && ms[i].key == key {
        assert i == |ms| - 1 || ms[..|ms| - 1][i].key == key;
      }
    }
  }

  lemma GetIff(v: Json, key: string)
    ensures v.Get(key).Some? <==> HasKey(v, key)
  {
    if v.Obj? {
      LastIff(v.members, key);
    }
  }

  // ---------------------------------------------------------------- UMQT

  datatype UmqtHeader = UmqtHeader(id: string, prefix: string, reliable: bool, topic: string)

  const UMQT_BLANK: UmqtHeader := UmqtHeader("", "", false, "")

  function InterpretUmqt(v: Json): Reading<UmqtHeader> {
    if v.Get("id").None? || v.Get("prefix").None? || v.Get("reliable").None? || v.Get("topic").None? then NotMessage
    else Fields(UmqtHeader(v.At("id").StrOr(""), v.At("prefix").StrOr(""),
                           v.At("reliable").BoolOr(false), v.At("topic").StrOr("")))
  }

  function ReadUmqt(b: Bytes): Reading<UmqtHeader> {
    match FromBytes(b, SERDE)
    case None => NotJson
    case Some(v) => InterpretUmqt(v)
  }

  /** `serde_json` keeps object keys sorted. */
  function UmqtJson(h: UmqtHeader): Json {
    Obj([Member("id", Str(h.id)), Member("prefix", Str(h.prefix)),
         Member("reliable", Bool(h.reliable)), Member("topic", Str(h.topic))])
  }

  function UmqtText(h: UmqtHeader): Bytes {
    ToBytes(UmqtJson(h))
  }

  lemma LastOfFour(a: Member, b: Member, c: Member, d: Member, key: string)
    requires b.key != a.key && c.key != a.key && d.key != a.key
    requires c.key != b.key && d.key != b.key && d.key != c.key
    ensures key == a.key ==> Last([a, b, c, d], key) == Some(a.value)
    ensures key == b.key ==> Last([a, b, c, d], key) == Some(b.value)
    ensures key == c.key ==> Last([a, b, c, d], key) == Some(c.value)
    ensures key == d.key ==> Last([a, b, c, d], key) == Some(d.value)
  {
    assert [a, b, c, d][..3] == [a, b, c];
    assert [a, b, c][..2] == [a, b];
    assert [a, b][..1] == [a];
    assert Last([a, b, c, d], key) == if d.key == key then Some(d.value) else Last([a, b, c], key);
    assert Last([a, b, c], key) == if c.key == key then Some(c.value) else Last([a, b], key);
    assert Last([a, b], key) == if b.key == key then Some(b.value) else Last([a], key);
  }

  lemma UmqtMembers(h: UmqtHeader)
    ensures UmqtJson(h).Get("id") == Some(Str(h.id)) && UmqtJson(h).Get("prefix") == Some(Str(h.prefix))
    ensures UmqtJson(h).Get("reliable") == Some(Bool(h.reliable)) && UmqtJson(h).Get("topic") == Some(Str(h.topic))
  {
    var m := UmqtJson(h).members;
    assert "prefix"[0] != "reliable"[0] && "id"[0] != "topic"[0];
    LastOfFour(m[0], m[1], m[2], m[3], "id");
    LastOfFour(m[0], m[1], m[2], m[3], "prefix");
    LastOfFour(m[0], m[1], m[2], m[3], "reliable");
    LastOfFour(m[0], m[1], m[2], m[3], "topic");
  }

  /** The text of a UMQT header, character by character. */
  function UmqtLiteral(h: UmqtHeader): string {
    "{\"id\":" + Quote(h.id) + ",\"prefix\":" + Quote(h.prefix) +
    ",\"reliable\":" + (if h.reliable then "true" else "false") + ",\"topic\":" + Quote(h.topic) + "}"
  }

  lemma UmqtTextIs(h: UmqtHeader)
    ensures UmqtText(h) == Utf8.Encode(UmqtLiteral(h))
  {
    hide Quote, Print, Utf8.Encode, UmqtLiteral;
    var m := UmqtJson(h).members;
    PrintFour(m[0], m[1], m[2], m[3]);
    StrPrinted("id", h.id);
    StrPrinted("prefix", h.prefix);
    BoolPrinted("reliable", h.reliable);
    StrPrinted("topic", h.topic);
    UmqtPieces(h);
    assert "\"" + "id" + "\":" == "\"id\":" && "\"" + "prefix" + "\":" == "\"prefix\":";
    assert "\"" + "reliable" + "\":" == "\"reliable\":" && "\"" + "topic" + "\":" == "\"topic\":";
    assert Print(UmqtJson(h)) == UmqtLiteral(h);
  }

  lemma UmqtPieces(h: UmqtHeader)
    ensures UmqtLiteral(h) ==
      ['{'] + ("\"id\":" + Quote(h.id)) + [','] + ("\"prefix\":" + Quote(h.prefix)) + [','] +
      ("\"reliable\":" + if h.reliable then "true" else "false") + [','] + ("\"topic\":" + Quote(h.topic)) + ['}']
  {
    hide Quote;
    Pieces("\"id\":", Quote(h.id), "\"prefix\":", Quote(h.prefix), "\"reliable\":",
           if h.reliable then "true" else "false", "\"topic\":", Quote(h.topic));
    assert ['{'] + "\"id\":" == "{\"id\":" && [','] + "\"prefix\":" == ",\"prefix\":";
    assert [','] + "\"reliable\":" == ",\"reliable\":" && [','] + "\"topic\":" == ",\"topic\":";
  }

  lemma Join(x: string, a: string, b: string, c: string)
    ensures x + a + (b + c) == x + (a + b) + c
  {
  }

  /** Four members, with the braces and commas drawn to the keys. */
  lemma Pieces(k0: string, v0: string, k1: string, v1: string, k2: string, v2: string, k3: string, v3: string)
    ensures ['{'] + (k0 + v0) + [','] + (k1 + v1) + [','] + (k2 + v2) + [','] + (k3 + v3) + ['}']
         == (['{'] + k0) + v0 + ([','] + k1) + v1 + ([','] + k2) + v2 + ([','] + k3) + v3 + ['}']
  {
    var x0 := (['{'] + k0) + v0;
    Join("", ['{'], k0, v0);
    assert ['{'] + (k0 + v0) == x0;
    Join(x0, [','], k1, v1);
    var x1 := x0 + ([','] + k1) + v1;
    Join(x1, [','], k2, v2);
    var x2 := x1 + ([','] + k2) + v2;
    Join(x2, [','], k3, v3);
  }

  lemma QuotedKey(key: string)
    requires forall i | 0 <= i < |key| :: Plain(key[i])
    ensures Quote(key) == "\"" + key + "\""
  {
    EscapePlain(key);
  }

  lemma StrPrinted(key: string, s: string)
    requires forall i | 0 <= i < |key| :: Plain(key[i])
    ensures PrintMember(Member(key, Str(s))) == "\"" + key + "\":" + Quote(s)
  {
    QuotedKey(key);
  }

  lemma BoolPrinted(key: string, b: bool)
    requires forall i | 0 <= i < |key| :: Plain(key[i])
    ensures PrintMember(Member(key, Bool(b))) == "\"" + key + "\":" + if b then "true" else "false"
  {
    QuotedKey(key);
  }

  lemma FourDepth(a: Member, b: Member, c: Member, d: Member)
    requires Depth(b.value, true) == 0 && Depth(c.value, true) == 0 && Depth(d.value, true) == 0
    ensures Depth(Obj([a, b, c, d]), true) == 1 + Depth(a.value, true)
  {
    var ms := [a, b, c, d];
    assert MembersDepth([d], true) == 0;
    assert [c, d][1..] == [d] && MembersDepth([c, d], true) == 0;
    assert [b, c, d][1..] == [c, d] && MembersDepth([b, c, d], true) == 0;
    assert ms[1..] == [b, c, d] && MembersDepth(ms, true) == Depth(a.value, true);
  }

  /** A UMQT header is read back from its own text. */
  lemma ReadUmqtText(h: UmqtHeader)
    ensures ReadUmqt(UmqtText(h)) == Fields(h)
  {
    FromBytesToBytes(UmqtJson(h), SERDE);
    var m := UmqtJson(h).members;
    FourDepth(m[0], m[1], m[2], m[3]);
    UmqtMembers(h);
  }

  /** JSON text is a UMQT message exactly when it nests less than 128 deep and is an object with the four keys,
      whatever their values: a value of the wrong kind reads as the empty string or false. */
  lemma UmqtMessageIff(v: Json)
    ensures ReadUmqt(ToBytes(v)).NotJson? <==> Depth(v, true) >= 128
    ensures ReadUmqt(ToBytes(v)).Fields? <==>
      Depth(v, true) < 128 && HasKey(v, "id") && HasKey(v, "prefix") && HasKey(v, "reliable") && HasKey(v, "topic")
    ensures ReadUmqt(ToBytes(v)).Fields? ==> var h := ReadUmqt(ToBytes(v)).header;
      && (if v.At("id").Str? then v.At("id") == Str(h.id) else h.id == "")
      && (if v.At("prefix").Str? then v.At("prefix") == Str(h.prefix) else h.prefix == "")
      && (if v.At("reliable").Bool? then v.At("reliable") == Bool(h.reliable) else !h.reliable)
      && (if v.At("topic").Str? then v.At("topic") == Str(h.topic) else h.topic == "")
  {
    FromBytesToBytes(v, SERDE);
    GetIff(v, "id");
    GetIff(v, "prefix");
    GetIff(v, "reliable");
    GetIff(v, "topic");
  }

  // ---------------------------------------------------------------- RPC

  datatype RpcHeader = RpcHeader(requestId: nat, ctx: Json)

  const EMPTY_CTX: Json := Obj([Member("payload", Obj([])), Member("reliable", Bool(false)),
                                Member("request_id", Num(0)), Member("topic", Null)])

  const RPC_BLANK: RpcHeader := RpcHeader(0, EMPTY_CTX)

  /** The empty context as it is printed. */
  const BLANK_TEXT: string := "{\"payload\":{},\"reliable\":false,\"request_id\":0,\"topic\":null}"

  lemma BlankText()
    ensures Print(EMPTY_CTX) == BLANK_TEXT
  {
    hide Quote, Print, PrintMember;
    var m := EMPTY_CTX.members;
    PrintFour(m[0], m[1], m[2], m[3]);
    PrintedWords();
    BlankPieces();
  }

  lemma BlankPieces()
    ensures ['{'] + "\"payload\":{}" + [','] + "\"reliable\":false" + [','] + "\"request_id\":0" + [','] +
      "\"topic\":null" + ['}'] == BLANK_TEXT
  {
    assert ['{'] + "\"payload\":{}" + [','] == "{\"payload\":{},";
    assert "{\"payload\":{}," + "\"reliable\":false" + [','] == "{\"payload\":{},\"reliable\":false,";
    assert "{\"payload\":{},\"reliable\":false," + "\"request_id\":0" + [',']
        == "{\"payload\":{},\"reliable\":false,\"request_id\":0,";
  }

  lemma PrintedWords()
    ensures PrintMember(Member("payload", Obj([]))) == "\"payload\":{}"
    ensures PrintMember(Member("reliable", Bool(false))) == "\"reliable\":false"
    ensures PrintMember(Member("request_id", Num(0))) == "\"request_id\":0"
    ensures PrintMember(Member("topic", Null)) == "\"topic\":null"
  {
    hide Quote;
    QuotedKey("payload");
    QuotedKey("reliable");
    QuotedKey("request_id");
    QuotedKey("topic");
  }

  function InterpretRpc(v: Json): Reading<RpcHeader> {
    if v.Get("topic").None? || v.Get("request_id").None? || v.Get("payload").None? then NotMessage
    else Fields(RpcHeader(IdOf(v.At("request_id").StrOr("0")), v.At("payload")))
  }

  function ReadRpc(b: Bytes): Reading<RpcHeader> {
    match FromBytes(b, SERDE)
    case None => NotJson
    case Some(v) => InterpretRpc(v)
  }

  function RpcJson(topic: string, requestId: nat, payload: Json, reliable: bool): Json {
    Obj([Member("payload", payload), Member("reliable", Bool(reliable)),
         Member("request_id", Str(Show(requestId))), Member("topic", Str(topic))])
  }

  function RpcText(topic: string, requestId: nat, payload: Json, reliable: bool): Bytes {
    ToBytes(RpcJson(topic, requestId, payload, reliable))
  }

  /** The header adds one container to the payload, and `from_str` refuses 128. */
  predicate Shallow(payload: Json) {
    Depth(payload, true) <= 126
  }

  /** An RPC header is read back from its own text if and only if its payload is shallow enough; otherwise the
      text is not accepted as JSON. */
  lemma ReadRpcText(topic: string, requestId: nat, payload: Json, reliable: bool)
    requires requestId <= 340282366920938463463374607431768211455
    ensures ReadRpc(RpcText(topic, requestId, payload, reliable)) ==
      if Depth(payload, true) <= 126 then Fields(RpcHeader(requestId, payload)) else NotJson
  {
    var v := RpcJson(topic, requestId, payload, reliable);
    FromBytesToBytes(v, SERDE);
    FourDepth(v.members[0], v.members[1], v.members[2], v.members[3]);
    IdOfShow(requestId);
    RpcMembers(topic, requestId, payload, reliable);
  }

  /** JSON text is an RPC message exactly when it nests less than 128 deep and is an object with the three keys;
      an id that is not a string of digits reads as 0. */
  lemma RpcMessageIff(v: Json)
    ensures ReadRpc(ToBytes(v)).NotJson? <==> Depth(v, true) >= 128
    ensures ReadRpc(ToBytes(v)).Fields? <==>
      Depth(v, true) < 128 && HasKey(v, "topic") && HasKey(v, "request_id") && HasKey(v, "payload")
    ensures ReadRpc(ToBytes(v)).Fields? ==> var h := ReadRpc(ToBytes(v)).header;
      && v.Get("payload") == Some(h.ctx)
      && (if v.At("request_id").Str? then h.requestId == IdOf(v.At("request_id").s) else h.requestId == 0)
  {
    FromBytesToBytes(v, SERDE);
    GetIff(v, "topic");
    GetIff(v, "request_id");
    GetIff(v, "payload");
    assert Show(0) == "0" && IdOf("0") == 0 by { IdOfShow(0); }
  }

  /** The text of an RPC header, character by character. */
  function RpcLiteral(topic: string, requestId: nat, payload: Json, reliable: bool): string {
    "{\"payload\":" + Print(payload) + ",\"reliable\":" + (if reliable then "true" else "false") +
    ",\"request_id\":" + ("\"" + Show(requestId) + "\"") + ",\"topic\":" + Quote(topic) + "}"
  }

  lemma RpcTextIs(topic: string, requestId: nat, payload: Json, reliable: bool)
    ensures RpcText(topic, requestId, payload, reliable) == Utf8.Encode(RpcLiteral(topic, requestId, payload, reliable))
  {
    hide Quote, Print, Show, Utf8.Encode, RpcLiteral;
    var m := RpcJson(topic, requestId, payload, reliable).members;
    PrintFour(m[0], m[1], m[2], m[3]);
    QuotedKey("payload");
    BoolPrinted("reliable", reliable);
    StrPrinted("request_id", Show(requestId));
    StrPrinted("topic", topic);
    RpcPieces(topic, requestId, payload, reliable);
    assert "\"" + "payload" + "\"" == "\"payload\"" && "\"" + "reliable" + "\":" == "\"reliable\":";
    assert "\"" + "request_id" + "\":" == "\"request_id\":" && "\"" + "topic" + "\":" == "\"topic\":";
    assert Print(RpcJson(topic, requestId, payload, reliable)) == RpcLiteral(topic, requestId, payload, reliable);
  }

  lemma RpcPieces(topic: string, requestId: nat, payload: Json, reliable: bool)
    ensures RpcLiteral(topic, requestId, payload, reliable) ==
      ['{'] + ("\"payload\"" + [':'] + Print(payload)) + [','] +
      ("\"reliable\":" + if reliable then "true" else "false") + [','] +
      ("\"request_id\":" + Quote(Show(requestId))) + [','] + ("\"topic\":" + Quote(topic)) + ['}']
  {
    hide Quote, Print, Show;
    Pieces("\"payload\":", Print(payload), "\"reliable\":", if reliable then "true" else "false",
           "\"request_id\":", Quote(Show(requestId)), "\"topic\":", Quote(topic));
    assert "\"payload\"" + [':'] == "\"payload\":";
    assert ['{'] + "\"payload\":" == "{\"payload\":" && [','] + "\"reliable\":" == ",\"reliable\":";
    assert [','] + "\"request_id\":" == ",\"request_id\":" && [','] + "\"topic\":" == ",\"topic\":";
    QuotedId(requestId);
  }

  lemma QuotedId(k: nat)
    ensures Quote(Show(k)) == "\"" + Show(k) + "\""
  {
    QuotedKey(Show(k));
  }

  lemma RpcMembers(topic: string, requestId: nat, payload: Json, reliable: bool)
    ensures var v := RpcJson(topic, requestId, payload, reliable);
      v.Get("payload") == Some(payload) && v.Get("topic") == Some(Str(topic)) &&
      v.Get("request_id") == Some(Str(Show(requestId)))
  {
    var m := RpcJson(topic, requestId, payload, reliable).members;
    assert m[1].key[2] != m[2].key[2];
    assert "payload"[0] != "reliable"[0] && "reliable"[0] != "topic"[0];
    LastOfFour(m[0], m[1], m[2], m[3], "payload");
    LastOfFour(m[0], m[1], m[2], m[3], "request_id");
    LastOfFour(m[0], m[1], m[2], m[3], "topic");
  }

  // ---------------------------------------------------------------- texts that start with a digit

  /** JSON that starts with a digit is a number, so no header starts with one. */
  lemma DigitTextIsNumber(t: Bytes)
    requires t != [] && 48 <= t[0] < 58
    ensures FromBytes(t, SERDE).Some? ==> FromBytes(t, SERDE).value.Num?
    ensures !ReadUmqt(t).Fields? && !ReadRpc(t).Fields?
  {
    match Utf8.Decode(t)
    case None =>
    case Some(s) =>
      assert s != "" && s[0] == t[0] as char;
      assert ParseValue(s, 128, true) == ParseNum(s);
  }

  /** `RPCReq::reset` restores the empty context but keeps the request id. */
  function ResetRpc(h: RpcHeader): RpcHeader {
    h.(ctx := EMPTY_CTX)
  }
}
