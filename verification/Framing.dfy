/** The `<jsonLen>+<binLen>:<json><bin>` frame and the incremental decoder shared, statement for
    statement, by `UMQTReq` and `RPCReq`. The two differ only in what they take from the JSON header,
    so the decoder is stated for any reader of that text. */
module Framing {
  import opened Common
  import opened Decimal
  import Utf8

  const META_LIMIT: nat := 8192

  /** What a decoder makes of the JSON text: not JSON, a value without the required keys, or the
      header fields it keeps. */
  datatype Reading<T> = NotJson | NotMessage | Fields(header: T)

  type Reader<T> = Bytes -> Reading<T>

  datatype Error = MissingPlus | BadMeta | MetaTooLong | BadJson | BadMessage

  /** `Ok(None)`, `Ok(Some(1))` and `Err(..)`. */
  datatype Outcome = NotYet | Ready | Failed(error: Error)

  datatype Decoder<T> = Decoder(
    buff: Bytes, hasMeta: bool, hasBody: bool,
    jsonLength: nat, binaryLength: nat, binary: Bytes, header: T)

  /** Either the next stage of `read_body` runs, or the call returns. */
  datatype Stage<T> = Go(next: Decoder<T>) | Stop(last: Decoder<T>, outcome: Outcome)

  // ---------------------------------------------------------------- the decoder

  /** A decoder between messages: `new()`, then `reset()` with the header fields it leaves. */
  function Idle<T>(header: T, buff: Bytes): Decoder<T> {
    Decoder(buff, false, false, 0, 0, [], header)
  }

  function Add<T>(s: Decoder<T>, block: Bytes): Decoder<T> {
    s.(buff := s.buff + block)
  }

  function Reset<T>(s: Decoder<T>, header: T): Decoder<T> {
    Idle(header, s.buff)
  }

  function ParseLength(b: Bytes): Option<nat> {
    match Utf8.Decode(b)
    case None => None
    case Some(t) => ParseUnsigned(t, USIZE_MAX)
  }

  /** `read_meta`: a failure of the second length leaves the first one stored. */
  function ReadMeta<T>(s: Decoder<T>, metaEnd: nat): (r: (Decoder<T>, Option<Error>))
    requires metaEnd <= |s.buff|
    ensures r.0.buff == s.buff
  {
    var meta := s.buff[..metaEnd];
    match IndexOf(meta, PLUS)
    case None => (s, Some(MissingPlus))
    case Some(pos) =>
      match ParseLength(meta[..pos])
      case None => (s, Some(BadMeta))
      case Some(j) =>
        match ParseLength(meta[pos + 1..])
        case None => (s.(jsonLength := j), Some(BadMeta))
        case Some(b) => (s.(jsonLength := j, binaryLength := b), None)
  }

  function MetaStage<T>(s: Decoder<T>): Stage<T> {
    if s.hasMeta then Go(s)
    else
      match IndexOf(s.buff, COLON)
      case None =>
        if |s.buff| > META_LIMIT then Stop(s.(buff := []), Failed(MetaTooLong)) else Stop(s, NotYet)
      case Some(metaEnd) =>
        match ReadMeta(s, metaEnd)
        case (s', Some(e)) => Stop(s'.(buff := []), Failed(e))
        case (s', None) => Go(s'.(hasMeta := true, buff := s.buff[metaEnd + 1..]))
  }

  /** The JSON is taken whenever enough bytes are buffered, also when it was taken before. */
  function JsonStage<T>(read: Reader<T>, s: Decoder<T>): Stage<T> {
    if s.jsonLength == 0 || |s.buff| < s.jsonLength then Go(s)
    else
      match read(s.buff[..s.jsonLength])
      case NotJson => Stop(s.(buff := []), Failed(BadJson))
      case NotMessage => Stop(s, Failed(BadMessage))
      case Fields(h) =>
        var s' := s.(header := h, buff := s.buff[s.jsonLength..]);
        if s.binaryLength == 0 then Stop(s'.(hasBody := true), Ready) else Go(s')
  }

  /** The binary is taken whenever enough bytes are buffered, also when the JSON was not taken. */
  function BinaryStage<T>(s: Decoder<T>): (Decoder<T>, Outcome) {
    if s.binaryLength != 0 && |s.buff| >= s.binaryLength then
      (s.(binary := s.buff[..s.binaryLength], hasBody := true, buff := s.buff[s.binaryLength..]), Ready)
    else (s, NotYet)
  }

  /** `read_body` once the length header is known. */
  function Finish<T>(read: Reader<T>, s: Decoder<T>): (Decoder<T>, Outcome) {
    match JsonStage(read, s)
    case Stop(s', o) => (s', o)
    case Go(s') => BinaryStage(s')
  }

  function ReadBody<T>(read: Reader<T>, s: Decoder<T>): (Decoder<T>, Outcome) {
    match MetaStage(s)
    case Stop(s', o) => (s', o)
    case Go(s') => Finish(read, s')
  }

  function ReadBlock<T>(read: Reader<T>, s: Decoder<T>): (Decoder<T>, Outcome) {
    if s.hasBody then (s, Ready) else ReadBody(read, s)
  }

  // ---------------------------------------------------------------- frames

  /** `format!("{}+{}:", j, b).as_bytes()`. */
  function Meta(j: nat, b: nat): Bytes {
    Utf8.Encode(Show(j) + ['+'] + Show(b) + [':'])
  }

  function Frame(json: Bytes, bin: Bytes): Bytes {
    Meta(|json|, |bin|) + json + bin
  }

  /** Layout of the header: `j` digits, one `+`, `b` digits, and the only `:` at the end. */
  lemma MetaShape(j: nat, b: nat)
    ensures Utf8.Ascii(Show(j)) && Utf8.Ascii(Show(b))
    ensures Meta(j, b) == Utf8.Encode(Show(j)) + [PLUS] + Utf8.Encode(Show(b)) + [COLON]
    ensures |Meta(j, b)| == |Show(j)| + |Show(b)| + 2
    ensures |Utf8.Encode(Show(j))| == |Show(j)| && |Utf8.Encode(Show(b))| == |Show(b)|
    ensures Absent(Meta(j, b), PLUS, |Show(j)|) && Absent(Meta(j, b), COLON, |Meta(j, b)| - 1)
    ensures Meta(j, b)[|Show(j)|] == PLUS && Meta(j, b)[|Meta(j, b)| - 1] == COLON
  {
    Utf8.EncodeAppend(Show(j) + ['+'] + Show(b), [':']);
    Utf8.EncodeAppend(Show(j) + ['+'], Show(b));
    Utf8.EncodeAppend(Show(j), ['+']);
    Utf8.EncodeAscii(Show(j));
    Utf8.EncodeAscii(Show(b));
    assert Utf8.Encode(['+']) == [PLUS] && Utf8.Encode([':']) == [COLON];
  }

  /** The longest header is 42 bytes, far below the limit of 8192. */
  lemma MetaLength(j: nat, b: nat)
    requires j <= USIZE_MAX && b <= USIZE_MAX
    ensures |Meta(j, b)| <= 42
  {
    MetaShape(j, b);
    ShowUsize(j);
    ShowUsize(b);
  }

  lemma MetaColon(j: nat, b: nat, t: Bytes)
    ensures IndexOf(Meta(j, b) + t, COLON) == Some(|Meta(j, b)| - 1)
  {
    MetaShape(j, b);
    IndexOfIs(Meta(j, b) + t, COLON, |Meta(j, b)| - 1);
  }

  lemma ParseLengthShow(n: nat)
    requires n <= USIZE_MAX
    ensures ParseLength(Utf8.Encode(Show(n))) == Some(n)
  {
    Utf8.DecodeEncode(Show(n));
    ParseShow(n, USIZE_MAX);
  }

  lemma MetaFields<T>(s: Decoder<T>, j: nat, b: nat, t: Bytes)
    requires s.buff == Meta(j, b) + t
    requires j <= USIZE_MAX && b <= USIZE_MAX
    ensures ReadMeta(s, |Meta(j, b)| - 1) == (s.(jsonLength := j, binaryLength := b), None)
  {
    MetaShape(j, b);
    var pos := |Show(j)|;
    var meta := s.buff[..|Meta(j, b)| - 1];
    assert meta == Meta(j, b)[..|Meta(j, b)| - 1];
    IndexOfIs(meta, PLUS, pos);
    assert meta[..pos] == Utf8.Encode(Show(j));
    assert meta[pos + 1..] == Utf8.Encode(Show(b));
    ParseLengthShow(j);
    ParseLengthShow(b);
  }

  /** A complete header is read and drained whatever follows it. */
  lemma MetaRead<T>(s: Decoder<T>, j: nat, b: nat, t: Bytes)
    requires !s.hasMeta && s.buff == Meta(j, b) + t
    requires j <= USIZE_MAX && b <= USIZE_MAX
    ensures MetaStage(s) == Go(s.(hasMeta := true, jsonLength := j, binaryLength := b, buff := t))
  {
    MetaColon(j, b, t);
    MetaFields(s, j, b, t);
    assert s.buff[|Meta(j, b)|..] == t;
  }

  /** An incomplete header waits. */
  lemma MetaWaits<T>(s: Decoder<T>, j: nat, b: nat, n: nat)
    requires j <= USIZE_MAX && b <= USIZE_MAX
    requires n < |Meta(j, b)| && !s.hasMeta && s.buff == Meta(j, b)[..n]
    ensures MetaStage(s) == Stop(s, NotYet)
  {
    MetaLength(j, b);
    MetaColon(j, b, []);
    assert Meta(j, b) + [] == Meta(j, b);
  }
}
