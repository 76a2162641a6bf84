/** The reply hop: `rpc_send*` frames a response as a C string, and C++ `deserialize` takes it apart with a
    parser of its own. */
module Reply {
  import opened Common
  import opened Decimal
  import opened Framing
  import opened Json
  import Utf8

  const INT_MAX: nat := 0x7FFF_FFFF
  const INT_MIN: int := -0x8000_0000

  /** `std::string::npos`, the largest `size_t`. */
  const NPOS: nat := USIZE_MAX

  /** `CString::new` refuses an interior zero byte; the caller then returns a null pointer. */
  function ReplyFrame(ctx: Json, bytes: Bytes): Option<Bytes> {
    var buff := Frame(ToBytes(ctx), bytes);
    if IndexOf(buff, 0).Some? then None else Some(buff)
  }

  /** The framing as the three `rpc_send` forms write it. */
  method BuildReply(ctx: Json, bytes: Bytes) returns (reply: Option<Bytes>)
    ensures reply == ReplyFrame(ctx, bytes)
  {
    hide IndexOf, ToBytes;
    var buff: Bytes := [];
    var ctxVec := ToBytes(ctx);
    var meta := Utf8.Encode(Show(|ctxVec|) + ['+'] + Show(|bytes|) + [':']);
    buff := buff + meta;
    buff := buff + ctxVec;
    buff := buff + bytes;
    assert buff == Frame(ToBytes(ctx), bytes);
    var zero := Position(buff, 0);
    if zero.Some? {
      return None;
    }
    return Some(buff);
  }

  // ---------------------------------------------------------------- deserialize

  /** What `deserialize` does: it returns a pair, throws, or reads outside the string. */
  datatype Outcome = Pair(ctx: Json, bytes: Bytes) | NullPointer | InvalidArgument | OutOfRange | JsonError | Undefined

  function Find(data: Bytes, b: byte): nat {
    match IndexOf(data, b)
    case Some(i) => i
    case None => NPOS
  }

  /** `substr`; None is the exception for a start past the end. */
  function Substr(s: Bytes, pos: nat, n: nat): Option<Bytes> {
    if pos > |s| then None else Some(s[pos..Min(pos + n, |s|)])
  }

  /** `size_t` arithmetic wraps. */
  function Size(n: int): nat {
    n % (USIZE_MAX + 1)
  }

  function Chars(b: Bytes): string {
    if b == [] then "" else [b[0] as char] + Chars(b[1..])
  }

  predicate IsSpace(c: char) {
    c == ' ' || 9 <= c as int <= 13
  }

  function SkipSpace(s: string): string {
    if s != "" && IsSpace(s[0]) then SkipSpace(s[1..]) else s
  }

  datatype Parsed = Number(n: int) | NoNumber | TooLarge

  /** `std::stoi`: leading space, a sign, the longest run of digits; whatever follows is ignored. */
  function Stoi(b: Bytes): Parsed {
    var s := SkipSpace(Chars(b));
    var negative := s != "" && s[0] == '-';
    var t := if s != "" && (s[0] == '-' || s[0] == '+') then s[1..] else s;
    var d := DigitRun(t);
    if d == 0 then NoNumber
    else
      var n: int := if negative then -(Value(t[..d]) as int) else Value(t[..d]);
      if INT_MIN <= n <= INT_MAX then Number(n) else TooLarge
  }

  function Deserialize(response: Option<Bytes>): Outcome {
    match response
    case None => NullPointer
    case Some(data) =>
      var pos1, pos2 := Find(data, PLUS), Find(data, COLON);
      match ReadLength(Substr(data, 0, pos1))
      case Left(e) => e
      case Right(ctxLen) =>
        match ReadLength(Substr(data, Size(pos1 + 1), Size(pos2 - pos1 - 1)))
        case Left(e) => e
        case Right(bytesLen) => TakeParts(data, Size(pos2 + 1), ctxLen, bytesLen)
  }

  datatype Either<L, R> = Left(l: L) | Right(r: R)

  /** `stoi(substr(..))` with its three exceptions. */
  function ReadLength(text: Option<Bytes>): Either<Outcome, int> {
    match text
    case None => Left(OutOfRange)
    case Some(b) =>
      match Stoi(b)
      case Number(n) => Right(n)
      case NoNumber => Left(InvalidArgument)
      case TooLarge => Left(OutOfRange)
  }

  /** Context text and bytes, counted from `base`; the string's own terminator may be read. */
  function TakeParts(data: Bytes, base: nat, ctxLen: int, bytesLen: int): Outcome {
    match Substr(data, base, Size(ctxLen))
    case None => OutOfRange
    case Some(text) =>
      match FromBytes(text, JSONCPP)
      case None => JsonError
      case Some(ctx) =>
        var start, memory := base + ctxLen, data + [0];
        if 0 <= start && 0 <= bytesLen && start + bytesLen <= |memory| then
          Pair(ctx, memory[start..start + bytesLen])
        else Undefined
  }

  // ---------------------------------------------------------------- round trip

  lemma {:induction false} CharsAscii(s: string)
    requires Utf8.Ascii(s)
    ensures Chars(Utf8.Encode(s)) == s
  {
    if s != "" {
      assert Utf8.Encode(s)[1..] == Utf8.Encode(s[1..]);
      CharsAscii(s[1..]);
      assert s == [s[0]] + s[1..];
    }
  }

  lemma StoiShow(n: nat)
    ensures Stoi(Utf8.Encode(Show(n))) == if n <= INT_MAX then Number(n) else TooLarge
  {
    MetaShape(n, 0);
    CharsAscii(Show(n));
    assert IsDigit(Show(n)[0]);
    DigitRunAll(Show(n), "");
    assert Show(n) + "" == Show(n) && Show(n)[..|Show(n)|] == Show(n);
    ValueShow(n);
  }

  lemma FindIs(data: Bytes, b: byte, i: nat)
    requires i < |data| && data[i] == b && Absent(data, b, i)
    ensures Find(data, b) == i
  {
    IndexOfIs(data, b, i);
  }

  /** Where the delimiters of a frame are. */
  lemma FrameDelimiters(json: Bytes, bytes: Bytes)
    requires |json| <= USIZE_MAX && |bytes| <= USIZE_MAX
    ensures var data, p, h := Frame(json, bytes), |Show(|json|)|, |Meta(|json|, |bytes|)|;
      Find(data, PLUS) == p && Find(data, COLON) == h - 1 && p < h - 1 && h <= 42
  {
    hide Find;
    var data, p, h := Frame(json, bytes), |Show(|json|)|, |Meta(|json|, |bytes|)|;
    MetaShape(|json|, |bytes|);
    MetaLength(|json|, |bytes|);
    assert forall i | 0 <= i < h :: data[i] == Meta(|json|, |bytes|)[i];
    FindIs(data, PLUS, p);
    FindIs(data, COLON, h - 1);
  }

  /** What stands between the delimiters. */
  lemma FrameLengths(json: Bytes, bytes: Bytes)
    requires |json| <= USIZE_MAX && |bytes| <= USIZE_MAX
    ensures var data, p, h := Frame(json, bytes), |Show(|json|)|, |Meta(|json|, |bytes|)|;
      && p + 1 <= h - 1 && Substr(data, 0, p) == Some(Utf8.Encode(Show(|json|)))
      && Substr(data, p + 1, h - 1 - p - 1) == Some(Utf8.Encode(Show(|bytes|)))
  {
    hide Substr, Frame, Meta, Show;
    var data, p, h := Frame(json, bytes), |Show(|json|)|, |Meta(|json|, |bytes|)|;
    MetaShape(|json|, |bytes|);
    FrameIs(json, bytes);
    Between(data, Utf8.Encode(Show(|json|)), Utf8.Encode(Show(|bytes|)), json + bytes);
    SubstrIs(data, 0, p);
    SubstrIs(data, p + 1, h - 1 - p - 1);
  }

  lemma FrameIs(json: Bytes, bytes: Bytes)
    ensures Frame(json, bytes) == Meta(|json|, |bytes|) + (json + bytes)
  {
  }

  lemma SubstrIs(s: Bytes, pos: nat, n: nat)
    requires pos + n <= |s|
    ensures Substr(s, pos, n) == Some(s[pos..pos + n])
  {
  }

  lemma Between(data: Bytes, left: Bytes, right: Bytes, tail: Bytes)
    requires data == (left + [PLUS] + right + [COLON]) + tail
    ensures data[..|left|] == left && data[|left| + 1..|left| + 1 + |right|] == right
  {
  }

  lemma TakePartsFrame(ctx: Json, bytes: Bytes)
    requires |ToBytes(ctx)| <= INT_MAX && |bytes| <= INT_MAX
    ensures var json := ToBytes(ctx);
      TakeParts(Frame(json, bytes), |Meta(|json|, |bytes|)|, |json|, |bytes|) ==
        if Depth(ctx, false) < 1000 then Pair(ctx, bytes) else JsonError
  {
    hide ToBytes, Meta, FromBytes;
    var json := ToBytes(ctx);
    var data, h := Frame(json, bytes), |Meta(|json|, |bytes|)|;
    FromBytesToBytes(ctx, JSONCPP);
    assert data[h..h + |json|] == json;
    assert (data + [0])[h + |json|..h + |json| + |bytes|] == bytes;
  }

  /** A reply is a null pointer exactly when the bytes contain a zero byte; the JSON never does. */
  lemma ReplyIsNull(ctx: Json, bytes: Bytes)
    ensures ReplyFrame(ctx, bytes).None? <==> 0 in bytes
  {
    hide ToBytes;
    var json := ToBytes(ctx);
    var buff := Frame(json, bytes);
    ToBytesNoZero(ctx);
    MetaShape(|json|, |bytes|);
    assert 0 !in Meta(|json|, |bytes|) by {
      Utf8.EncodeNoZero(Show(|json|) + ['+'] + Show(|bytes|) + [':']);
    }
    assert buff == Meta(|json|, |bytes|) + json + bytes;
    assert 0 in buff <==> 0 in bytes;
  }

  lemma NullThrows()
    ensures Deserialize(None) == NullPointer
  {
  }

  /** `deserialize` finds both lengths of a frame, and takes the parts if they fit an `int`. */
  lemma DeserializeFrame(json: Bytes, bytes: Bytes)
    requires |json| <= USIZE_MAX && |bytes| <= USIZE_MAX
    ensures Deserialize(Some(Frame(json, bytes))) ==
      if |json| > INT_MAX || |bytes| > INT_MAX then OutOfRange
      else TakeParts(Frame(json, bytes), |Meta(|json|, |bytes|)|, |json|, |bytes|)
  {
    hide Frame, Find, Substr, Stoi, TakeParts, Meta, Show;
    FrameDelimiters(json, bytes);
    FrameLengths(json, bytes);
    StoiShow(|json|);
    StoiShow(|bytes|);
  }

  /** The cross-language reply, for every context and every byte string: a zero byte gives a null pointer and
      an exception, a length beyond a C++ `int` and a context too deep for jsoncpp give an exception, and
      everything else gives exactly the pair that was sent; never a truncated one. */
  lemma ReplyRoundTrip(ctx: Json, bytes: Bytes)
    requires |ToBytes(ctx)| <= 18446744073709551615 && |bytes| <= 18446744073709551615
    ensures Deserialize(ReplyFrame(ctx, bytes)) ==
      if 0 in bytes then NullPointer
      else if |ToBytes(ctx)| > 2147483647 || |bytes| > 2147483647 then OutOfRange
      else if Depth(ctx, false) >= 1000 then JsonError
      else Pair(ctx, bytes)
  {
    hide ToBytes, Frame, Deserialize, TakeParts, ReplyFrame, Meta, Depth;
    ReplyIsNull(ctx, bytes);
    if 0 in bytes {
      NullThrows();
    } else {
      ReplyIsFrame(ctx, bytes);
      DeserializeFrame(ToBytes(ctx), bytes);
      if |ToBytes(ctx)| <= INT_MAX && |bytes| <= INT_MAX {
        TakePartsFrame(ctx, bytes);
      }
    }
  }

  lemma ReplyIsFrame(ctx: Json, bytes: Bytes)
    requires ReplyFrame(ctx, bytes).Some?
    ensures ReplyFrame(ctx, bytes) == Some(Frame(ToBytes(ctx), bytes))
  {
  }
}
