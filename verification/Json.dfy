/** JSON values, their compact text and its parser, in the shape `serde_json` writes and reads them.
    An object is the sequence of its members; a repeated key means its last binding. */
module Json {
  import opened Common
  import opened Decimal
  import Utf8

  const I64_MIN: int := -0x8000_0000_0000_0000

  /** Integers of the widths `serde_json` stores exactly. */
  type Integer = n: int | I64_MIN <= n <= USIZE_MAX

  datatype Json =
    | Null
    | Bool(b: bool)
    | Num(n: Integer)
    | Str(s: string)
    | Arr(elems: seq<Json>)
    | Obj(members: seq<Member>)
  {
    /** `Value::get(key)`: None for a missing key and for every value that is not an object. */
    function Get(key: string): Option<Json> {
      if Obj? then Last(members, key) else None
    }

    /** `value[key]`: Null where `get` finds nothing. */
    function At(key: string): Json {
      match Get(key)
      case Some(v) => v
      case None => Null
    }

    function StrOr(default: string): string {
      if Str? then s else default
    }

    function BoolOr(default: bool): bool {
      if Bool? then b else default
    }
  }

  datatype Member = Member(key: string, value: Json)

  function Last(members: seq<Member>, key: string): Option<Json> {
    if |members| == 0 then None
    else if members[|members| - 1].key == key then Some(members[|members| - 1].value)
    else Last(members[..|members| - 1], key)
  }

  /** Of several bindings of a key the last one counts. */
  lemma {:induction false} LastBinding(members: seq<Member>, key: string, i: nat)
    requires i < |members| && members[i].key == key
    requires forall j | i < j < |members| :: members[j].key != key
    ensures Obj(members).Get(key) == Some(members[i].value) && Obj(members).At(key) == members[i].value
  {
    var n := |members| - 1;
    if i < n {
      LastBinding(members[..n], key, i);
    }
  }

  // ---------------------------------------------------------------- nesting

  /** How deep a parser descends. `serde_json` gives up on opening the `depth`-th container, also an empty one;
      jsoncpp gives up on reading a value inside that many containers. */
  datatype Limits = Limits(depth: nat, empties: bool)

  const SERDE: Limits := Limits(128, true)
  const JSONCPP: Limits := Limits(1000, false)

  /** Containers around the innermost one, itself included; `empties` says whether an empty one counts. */
  function Depth(v: Json, empties: bool): nat
    decreases v, 0
  {
    match v
    case Arr(es) => if es == [] then if empties then 1 else 0 else 1 + ElemsDepth(es, empties)
    case Obj(ms) => if ms == [] then if empties then 1 else 0 else 1 + MembersDepth(ms, empties)
    case _ => 0
  }

  function ElemsDepth(es: seq<Json>, empties: bool): nat
    requires es != []
    decreases es, 1
  {
    var d := Depth(es[0], empties);
    if |es| == 1 then d else Max(d, ElemsDepth(es[1..], empties))
  }

  function MembersDepth(ms: seq<Member>, empties: bool): nat
    requires ms != []
    decreases ms, 1
  {
    var d := Depth(ms[0].value, empties);
    if |ms| == 1 then d else Max(d, MembersDepth(ms[1..], empties))
  }

  /** Not counting empty containers never makes a value deeper. */
  lemma {:induction false} DepthWithoutEmpties(v: Json)
    ensures Depth(v, false) <= Depth(v, true)
    decreases v, 0
  {
    match v
    case Arr(es) => if es != [] { ElemsWithoutEmpties(es); }
    case Obj(ms) => if ms != [] { MembersWithoutEmpties(ms); }
    case _ =>
  }

  lemma {:induction false} ElemsWithoutEmpties(es: seq<Json>)
    requires es != []
    ensures ElemsDepth(es, false) <= ElemsDepth(es, true)
    decreases es, 1
  {
    DepthWithoutEmpties(es[0]);
    if |es| > 1 {
      ElemsWithoutEmpties(es[1..]);
    }
  }

  lemma {:induction false} MembersWithoutEmpties(ms: seq<Member>)
    requires ms != []
    ensures MembersDepth(ms, false) <= MembersDepth(ms, true)
    decreases ms, 1
  {
    var Member(_, v) := ms[0];
    DepthWithoutEmpties(v);
    if |ms| > 1 {
      MembersWithoutEmpties(ms[1..]);
    }
  }

  // ---------------------------------------------------------------- printing

  function Hex(d: nat): char
    requires d < 16
  {
    if d < 10 then (48 + d) as char else (87 + d) as char
  }

  function EscapeChar(c: char): string {
    if c == '"' then "\\\""
    else if c == '\\' then "\\\\"
    else if c as int == 8 then "\\b"
    else if c as int == 9 then "\\t"
    else if c as int == 10 then "\\n"
    else if c as int == 12 then "\\f"
    else if c as int == 13 then "\\r"
    else if c as int < 32 then ['\\', 'u', '0', '0', Hex(c as int / 16), Hex(c as int % 16)]
    else [c]
  }

  function Escape(s: string): string {
    if s == "" then "" else EscapeChar(s[0]) + Escape(s[1..])
  }

  function Quote(s: string): string {
    ['"'] + Escape(s) + ['"']
  }

  function Print(v: Json): (r: string)
    ensures r != ""
    decreases v, 0
  {
    match v
    case Null => "null"
    case Bool(b) => if b then "true" else "false"
    case Num(n) => if n < 0 then ['-'] + Show(-n) else Show(n)
    case Str(s) => Quote(s)
    case Arr(es) => ['['] + (if es == [] then "" else PrintElems(es)) + [']']
    case Obj(ms) => ['{'] + (if ms == [] then "" else PrintMembers(ms)) + ['}']
  }

  function PrintElems(es: seq<Json>): string
    requires es != []
    decreases es, 1
  {
    if |es| == 1 then Print(es[0]) else Print(es[0]) + [','] + PrintElems(es[1..])
  }

  function PrintMembers(ms: seq<Member>): string
    requires ms != []
    decreases ms, 1
  {
    var head := Quote(ms[0].key) + [':'] + Print(ms[0].value);
    if |ms| == 1 then head else head + [','] + PrintMembers(ms[1..])
  }

  // ---------------------------------------------------------------- parsing

  /** A parsed prefix and the text after it. */
  type Parsed<T> = Option<(T, string)>

  predicate StartsWith(s: string, word: string) {
    |word| <= |s| && s[..|word|] == word
  }

  function HexValue(c: char): int {
    if '0' <= c <= '9' then c as int - 48
    else if 'a' <= c <= 'f' then c as int - 87
    else if 'A' <= c <= 'F' then c as int - 55
    else -0x10000
  }

  /** One string character after an opening quote; surrogate escapes are rejected. */
  function ParseChar(s: string): (r: Parsed<char>)
    requires s != ""
    ensures r.Some? ==> |r.value.1| < |s|
  {
    if s[0] as int < 32 || s[0] == '"' then None
    else if s[0] != '\\' then Some((s[0], s[1..]))
    else if |s| < 2 then None
    else
      var e := s[1];
      if e == '"' || e == '\\' || e == '/' then Some((e, s[2..]))
      else if e == 'b' then Some((8 as char, s[2..]))
      else if e == 't' then Some((9 as char, s[2..]))
      else if e == 'n' then Some((10 as char, s[2..]))
      else if e == 'f' then Some((12 as char, s[2..]))
      else if e == 'r' then Some((13 as char, s[2..]))
      else if e == 'u' && |s| >= 6 then
        var n := 4096 * HexValue(s[2]) + 256 * HexValue(s[3]) + 16 * HexValue(s[4]) + HexValue(s[5]);
        if 0 <= n < 0xD800 then Some((n as char, s[6..]))
        else if 0xE000 <= n < 0x10000 then Some((n as char, s[6..]))
        else None
      else None
  }

  function ParseChars(s: string): (r: Parsed<string>)
    ensures r.Some? ==> |r.value.1| < |s|
    decreases |s|
  {
    if s == "" then None
    else if s[0] == '"' then Some(("", s[1..]))
    else
      match ParseChar(s)
      case None => None
      case Some((c, rest)) =>
        match ParseChars(rest)
        case None => None
        case Some((t, rest')) => Some(([c] + t, rest'))
  }

  /** Length of the longest prefix of digits. */
  function DigitRun(s: string): (n: nat)
    ensures n <= |s| && Digits(s[..n])
  {
    if s == "" || !IsDigit(s[0]) then 0
    else
      assert s[..1 + DigitRun(s[1..])] == [s[0]] + s[1..][..DigitRun(s[1..])];
      1 + DigitRun(s[1..])
  }

  predicate FractionMark(s: string) {
    s != "" && s[0] in ['.', 'e', 'E']
  }

  /** Digits without superfluous leading zeros and not the integer part of a fraction. */
  function ParseNatural(t: string): (r: Parsed<nat>)
    ensures r.Some? ==> |r.value.1| < |t|
  {
    var n := DigitRun(t);
    if n == 0 || (n > 1 && t[0] == '0') || FractionMark(t[n..]) then None
    else Some((Value(t[..n]), t[n..]))
  }

  /** An integer; fractions, exponents and `-0` are not part of the model. */
  function ParseNum(s: string): (r: Parsed<Json>)
    ensures r.Some? ==> |r.value.1| < |s|
  {
    var negative := s != "" && s[0] == '-';
    match ParseNatural(if negative then s[1..] else s)
    case None => None
    case Some((v, rest)) =>
      var n: int := if negative then -(v as int) else v;
      if (negative && v == 0) || !(I64_MIN <= n <= USIZE_MAX) then None
      else Some((Num(n), rest))
  }

  function Prepend<T>(x: T, r: Parsed<seq<T>>): (r': Parsed<seq<T>>)
    ensures r.None? <==> r'.None?
    ensures r.Some? ==> r'.value.1 == r.value.1
  {
    match r
    case None => None
    case Some((xs, rest)) => Some(([x] + xs, rest))
  }

  /** One value, with `d` containers still to open before the limit. */
  function ParseValue(s: string, d: nat, empties: bool): (r: Parsed<Json>)
    ensures r.Some? ==> |r.value.1| < |s|
    decreases |s|, 0
  {
    if s == "" then None
    else if s[0] == 'n' then if StartsWith(s, "null") then Some((Null, s[4..])) else None
    else if s[0] == 't' then if StartsWith(s, "true") then Some((Bool(true), s[4..])) else None
    else if s[0] == 'f' then if StartsWith(s, "false") then Some((Bool(false), s[5..])) else None
    else if s[0] == '"' then
      match ParseChars(s[1..])
      case None => None
      case Some((t, rest)) => Some((Str(t), rest))
    else if s[0] == '[' then
      if |s| > 1 && s[1] == ']' then if empties && d <= 1 then None else Some((Arr([]), s[2..]))
      else if d <= 1 then None
      else
        match ParseElems(s[1..], d - 1, empties)
        case None => None
        case Some((es, rest)) => Some((Arr(es), rest))
    else if s[0] == '{' then
      if |s| > 1 && s[1] == '}' then if empties && d <= 1 then None else Some((Obj([]), s[2..]))
      else if d <= 1 then None
      else
        match ParseMembers(s[1..], d - 1, empties)
        case None => None
        case Some((ms, rest)) => Some((Obj(ms), rest))
    else ParseNum(s)
  }

  function ParseElems(s: string, d: nat, empties: bool): (r: Parsed<seq<Json>>)
    ensures r.Some? ==> |r.value.1| < |s|
    decreases |s|, 1
  {
    match ParseValue(s, d, empties)
    case None => None
    case Some((v, rest)) =>
      if rest == "" then None
      else if rest[0] == ']' then Some(([v], rest[1..]))
      else if rest[0] != ',' then None
      else
        Prepend(v, ParseElems(rest[1..], d, empties))
  }

  function ParseMembers(s: string, d: nat, empties: bool): (r: Parsed<seq<Member>>)
    ensures r.Some? ==> |r.value.1| < |s|
    decreases |s|, 1
  {
    if s == "" || s[0] != '"' then None
    else
      match ParseChars(s[1..])
      case None => None
      case Some((key, rest)) =>
        if rest == "" || rest[0] != ':' then None
        else
          match ParseValue(rest[1..], d, empties)
          case None => None
          case Some((v, rest)) =>
            if rest == "" then None
            else if rest[0] == '}' then Some(([Member(key, v)], rest[1..]))
            else if rest[0] != ',' then None
            else
              Prepend(Member(key, v), ParseMembers(rest[1..], d, empties))
  }

  /** One value and nothing after it. */
  function Parse(s: string, limits: Limits): Option<Json> {
    match ParseValue(s, limits.depth, limits.empties)
    case Some((v, rest)) => if rest == "" then Some(v) else None
    case None => None
  }

  /** `serde_json::to_string(..).as_bytes()`. */
  function ToBytes(v: Json): (r: Bytes)
    ensures r != []
  {
    Utf8.EncodeNonEmpty(Print(v));
    Utf8.Encode(Print(v))
  }

  /** `from_utf8` followed by `from_str`; both failures end the frame the same way. */
  function FromBytes(b: Bytes, limits: Limits): Option<Json> {
    match Utf8.Decode(b)
    case None => None
    case Some(s) => Parse(s, limits)
  }

  // ---------------------------------------------------------------- round trip

  /** A control character in four hexadecimal digits. */
  lemma ParseHexEscape(c: char, rest: string)
    requires c as int < 32
    ensures ParseChar(['\\', 'u', '0', '0', Hex(c as int / 16), Hex(c as int % 16)] + rest) == Some((c, rest))
  {
    var s := ['\\', 'u', '0', '0', Hex(c as int / 16), Hex(c as int % 16)] + rest;
    assert s[6..] == rest && s[0] == '\\' && s[1] == 'u' && s[2] == '0' && s[3] == '0';
    HexValueOf(c as int / 16);
    HexValueOf(c as int % 16);
    assert HexValue(s[4]) == c as int / 16 && HexValue(s[5]) == c as int % 16;
  }

  lemma HexValueOf(d: nat)
    requires d < 16
    ensures HexValue(Hex(d)) == d
  {
  }

  lemma ParseCharEscape(c: char, rest: string)
    ensures EscapeChar(c)[0] != '"'
    ensures ParseChar(EscapeChar(c) + rest) == Some((c, rest))
  {
    var e := EscapeChar(c);
    var s := e + rest;
    assert s[|e|..] == rest && s[0] == e[0];
    if |e| == 6 {
      ParseHexEscape(c, rest);
    } else if |e| == 2 {
      assert s[1] == e[1];
    }
  }

  lemma {:induction false} ParseCharsEscape(t: string, rest: string)
    ensures ParseChars(Escape(t) + ['"'] + rest) == Some((t, rest))
  {
    var s := Escape(t) + ['"'] + rest;
    if t == "" {
      assert s[1..] == rest;
    } else {
      var tail := Escape(t[1..]) + ['"'] + rest;
      assert s == EscapeChar(t[0]) + tail;
      ParseCharEscape(t[0], tail);
      ParseCharsEscape(t[1..], rest);
      assert [t[0]] + t[1..] == t;
    }
  }

  /** What may follow a printed value without changing how it is read. */
  predicate Delimited(rest: string) {
    rest == "" || (!IsDigit(rest[0]) && !FractionMark(rest))
  }

  lemma {:induction false} DigitRunAll(d: string, rest: string)
    requires Digits(d) && (rest == "" || !IsDigit(rest[0]))
    ensures DigitRun(d + rest) == |d|
  {
    if d == "" {
      assert d + rest == rest;
    } else {
      assert (d + rest)[1..] == d[1..] + rest;
      DigitRunAll(d[1..], rest);
    }
  }

  lemma {:induction false} ShowNoLeadingZero(n: nat)
    ensures |Show(n)| > 1 ==> Show(n)[0] != '0'
    ensures n > 0 ==> Show(n)[0] != '0'
  {
    if n >= 10 {
      ShowNoLeadingZero(n / 10);
    }
  }

  lemma ParseNaturalShow(a: nat, rest: string)
    requires Delimited(rest)
    ensures ParseNatural(Show(a) + rest) == Some((a, rest))
  {
    var t := Show(a) + rest;
    DigitRunAll(Show(a), rest);
    ShowNoLeadingZero(a);
    ValueShow(a);
    assert t[..|Show(a)|] == Show(a) && t[|Show(a)|..] == rest;
  }

  lemma ParseNumPrint(n: Integer, rest: string)
    requires Delimited(rest)
    ensures ParseNum(Print(Num(n)) + rest) == Some((Num(n), rest))
  {
    var a := if n < 0 then -n else n;
    var s := Print(Num(n)) + rest;
    ParseNaturalShow(a, rest);
    if n < 0 {
      assert s[1..] == Show(a) + rest;
    } else {
      assert IsDigit(Show(a)[0]) && s[0] == Show(a)[0];
    }
  }

  lemma PrintNumHead(n: Integer)
    ensures IsDigit(Print(Num(n))[0]) || Print(Num(n))[0] == '-'
  {
    var a := if n < 0 then -n else n;
    assert IsDigit(Show(a)[0]);
  }

  /** A printed value does not begin with a closing bracket. */
  lemma PrintHead(v: Json)
    ensures Print(v)[0] != ']' && Print(v)[0] != '}'
  {
    match v
    case Num(n) => PrintNumHead(n);
    case _ =>
  }

  lemma ElemsHead(es: seq<Json>)
    requires es != []
    ensures PrintElems(es) != "" && PrintElems(es)[0] != ']'
  {
    PrintHead(es[0]);
  }

  lemma MembersHead(ms: seq<Member>)
    requires ms != []
    ensures PrintMembers(ms) != "" && PrintMembers(ms)[0] != '}'
  {
  }

  lemma ParseWord(v: Json, rest: string, d: nat, e: bool)
    requires v.Null? || v.Bool?
    ensures ParseValue(Print(v) + rest, d, e) == Some((v, rest))
  {
    var s := Print(v) + rest;
    assert s[|Print(v)|..] == rest && s[..|Print(v)|] == Print(v);
  }

  lemma ParseBracket(inner: string, d: nat, e: bool)
    requires inner != "" && inner[0] != ']'
    ensures d <= 1 ==> ParseValue(['['] + inner, d, e) == None
    ensures d > 1 ==> var r := ParseElems(inner, d - 1, e);
      ParseValue(['['] + inner, d, e) == if r.None? then None else Some((Arr(r.value.0), r.value.1))
  {
    var s := ['['] + inner;
    assert s[1..] == inner;
  }

  lemma ParseBrace(inner: string, d: nat, e: bool)
    requires inner != "" && inner[0] != '}'
    ensures d <= 1 ==> ParseValue(['{'] + inner, d, e) == None
    ensures d > 1 ==> var r := ParseMembers(inner, d - 1, e);
      ParseValue(['{'] + inner, d, e) == if r.None? then None else Some((Obj(r.value.0), r.value.1))
  {
    var s := ['{'] + inner;
    assert s[1..] == inner;
  }

  lemma ParseQuoted(t: string, rest: string, d: nat, e: bool)
    ensures ParseValue(Quote(t) + rest, d, e) == Some((Str(t), rest))
  {
    var s := Quote(t) + rest;
    assert s[1..] == Escape(t) + ['"'] + rest;
    ParseCharsEscape(t, rest);
  }

  lemma ParseEmpty(v: Json, rest: string, d: nat, e: bool)
    requires v == Arr([]) || v == Obj([])
    ensures ParseValue(Print(v) + rest, d, e) == if e && d <= 1 then None else Some((v, rest))
  {
    var s := Print(v) + rest;
    assert s[2..] == rest;
  }

  lemma ParseInteger(n: Integer, rest: string, d: nat, e: bool)
    requires Delimited(rest)
    ensures ParseValue(Print(Num(n)) + rest, d, e) == Some((Num(n), rest))
  {
    var s := Print(Num(n)) + rest;
    PrintNumHead(n);
    assert s[0] == Print(Num(n))[0];
    ParseNumPrint(n, rest);
  }

  /** A printed value is read back exactly as long as it nests less deeply than the limit. */
  lemma {:induction false} ParsePrintValue(v: Json, rest: string, d: nat, e: bool)
    requires Delimited(rest) && d >= 1
    ensures ParseValue(Print(v) + rest, d, e) == if Depth(v, e) < d then Some((v, rest)) else None
    decreases v, 0
  {
    hide ParseValue, ParseElems, ParseMembers, PrintElems, PrintMembers, ElemsDepth, MembersDepth, Quote, Show;
    match v
    case Str(t) => ParseQuoted(t, rest, d, e);
    case Num(n) => ParseInteger(n, rest, d, e);
    case Arr(es) =>
      if es == [] {
        ParseEmpty(v, rest, d, e);
      } else {
        var inner := PrintElems(es) + [']'] + rest;
        assert Print(v) + rest == ['['] + inner;
        ElemsHead(es);
        ParseBracket(inner, d, e);
        if d > 1 {
          ParsePrintElems(es, rest, d - 1, e);
        }
      }
    case Obj(ms) =>
      if ms == [] {
        ParseEmpty(v, rest, d, e);
      } else {
        var inner := PrintMembers(ms) + ['}'] + rest;
        assert Print(v) + rest == ['{'] + inner;
        MembersHead(ms);
        ParseBrace(inner, d, e);
        if d > 1 {
          ParsePrintMembers(ms, rest, d - 1, e);
        }
      }
    case _ => ParseWord(v, rest, d, e);
  }

  lemma ParseElemsStep(s: string, v: Json, tail: string, d: nat, e: bool)
    requires ParseValue(s, d, e) == Some((v, tail)) && tail != ""
    ensures tail[0] == ']' ==> ParseElems(s, d, e) == Some(([v], tail[1..]))
    ensures tail[0] == ',' ==> ParseElems(s, d, e) == Prepend(v, ParseElems(tail[1..], d, e))
  {
    hide ParseValue;
  }

  lemma ParseElemsFails(s: string, d: nat, e: bool)
    requires ParseValue(s, d, e) == None
    ensures ParseElems(s, d, e) == None
  {
    hide ParseValue;
  }

  lemma PrintElemsIs(es: seq<Json>, e: bool)
    requires es != []
    ensures PrintElems(es) == Print(es[0]) + if |es| == 1 then "" else [','] + PrintElems(es[1..])
    ensures ElemsDepth(es, e) == if |es| == 1 then Depth(es[0], e) else Max(Depth(es[0], e), ElemsDepth(es[1..], e))
  {
  }

  lemma DelimitedTail(tail: string)
    requires tail != "" && tail[0] in [',', ']', '}']
    ensures Delimited(tail)
  {
  }

  lemma {:induction false} ParsePrintElems(es: seq<Json>, rest: string, d: nat, e: bool)
    requires es != [] && d >= 1
    ensures ParseElems(PrintElems(es) + [']'] + rest, d, e) == if ElemsDepth(es, e) < d then Some((es, rest)) else None
    decreases es, 1
  {
    hide ParseValue, ParseElems, Print, PrintElems, Depth, ElemsDepth, Delimited;
    PrintElemsIs(es, e);
    var s := PrintElems(es) + [']'] + rest;
    var tail := if |es| == 1 then [']'] + rest else [','] + (PrintElems(es[1..]) + [']'] + rest);
    assert s == Print(es[0]) + tail;
    DelimitedTail(tail);
    ParsePrintValue(es[0], tail, d, e);
    if Depth(es[0], e) >= d {
      ParseElemsFails(s, d, e);
    } else {
      ParseElemsStep(s, es[0], tail, d, e);
      if |es| == 1 {
        assert tail[1..] == rest && es == [es[0]];
      } else {
        ParsePrintElems(es[1..], rest, d, e);
        assert tail[1..] == PrintElems(es[1..]) + [']'] + rest;
        assert es == [es[0]] + es[1..];
      }
    }
  }

  lemma ParseMembersStep(key: string, t: string, d: nat, e: bool)
    ensures var s := Quote(key) + [':'] + t; var r := ParseValue(t, d, e);
      && (r.None? ==> ParseMembers(s, d, e) == None)
      && (r.Some? && r.value.1 != "" ==> var (v, tail) := r.value;
            && (tail[0] == '}' ==> ParseMembers(s, d, e) == Some(([Member(key, v)], tail[1..])))
            && (tail[0] == ',' ==> ParseMembers(s, d, e) == Prepend(Member(key, v), ParseMembers(tail[1..], d, e))))
  {
    hide ParseValue;
    var s := Quote(key) + [':'] + t;
    var after := [':'] + t;
    assert s[1..] == Escape(key) + ['"'] + after;
    ParseCharsEscape(key, after);
    assert after[1..] == t;
  }

  function Closing(ms: seq<Member>, rest: string): string
    requires ms != []
  {
    if |ms| == 1 then ['}'] + rest else [','] + (PrintMembers(ms[1..]) + ['}'] + rest)
  }

  lemma Regroup(key: string, value: string, more: string, rest: string)
    ensures (key + [':'] + value) + [','] + more + ['}'] + rest
         == key + [':'] + (value + ([','] + (more + ['}'] + rest)))
    ensures (key + [':'] + value) + ['}'] + rest == key + [':'] + (value + (['}'] + rest))
  {
  }

  lemma PrintMembersIs(ms: seq<Member>)
    requires ms != []
    ensures var head := Quote(ms[0].key) + [':'] + Print(ms[0].value);
      PrintMembers(ms) == if |ms| == 1 then head else head + [','] + PrintMembers(ms[1..])
  {
  }

  lemma MembersShape(ms: seq<Member>, rest: string)
    requires ms != []
    ensures PrintMembers(ms) + ['}'] + rest
         == Quote(ms[0].key) + [':'] + (Print(ms[0].value) + Closing(ms, rest))
  {
    hide Quote, Print, PrintMembers;
    PrintMembersIs(ms);
    Regroup(Quote(ms[0].key), Print(ms[0].value), if |ms| == 1 then "" else PrintMembers(ms[1..]), rest);
  }

  lemma {:induction false} ParsePrintMembers(ms: seq<Member>, rest: string, d: nat, e: bool)
    requires ms != [] && d >= 1
    ensures ParseMembers(PrintMembers(ms) + ['}'] + rest, d, e) ==
      if MembersDepth(ms, e) < d then Some((ms, rest)) else None
    decreases ms, 1
  {
    hide ParseValue, ParseMembers, PrintMembers, Print, Quote, Depth, Delimited;
    var tail := Closing(ms, rest);
    MembersShape(ms, rest);
    DelimitedTail(tail);
    ParsePrintValue(ms[0].value, tail, d, e);
    ParseMembersStep(ms[0].key, Print(ms[0].value) + tail, d, e);
    if |ms| > 1 {
      ParsePrintMembers(ms[1..], rest, d, e);
      assert tail[1..] == PrintMembers(ms[1..]) + ['}'] + rest;
      assert ms == [ms[0]] + ms[1..];
    } else {
      assert tail[1..] == rest && ms == [ms[0]];
    }
  }

  /** A value is read back from its own bytes if and only if it nests less deeply than the limit. */
  lemma FromBytesToBytes(v: Json, limits: Limits)
    requires limits.depth >= 1
    ensures FromBytes(ToBytes(v), limits) == if Depth(v, limits.empties) < limits.depth then Some(v) else None
  {
    Utf8.DecodeEncode(Print(v));
    assert Print(v) + "" == Print(v);
    ParsePrintValue(v, "", limits.depth, limits.empties);
  }

  /** Text after the value is refused. */
  lemma TrailingTextIsRefused(v: Json, extra: string, limits: Limits)
    requires limits.depth >= 1 && extra != "" && Delimited(extra)
    ensures Parse(Print(v) + extra, limits) == None
    ensures FromBytes(ToBytes(v) + Utf8.Encode(extra), limits) == None
  {
    hide ParseValue;
    ParsePrintValue(v, extra, limits.depth, limits.empties);
    Utf8.EncodeAppend(Print(v), extra);
    Utf8.DecodeEncode(Print(v) + extra);
  }

  // ---------------------------------------------------------------- objects of four members

  function PrintMember(m: Member): string {
    Quote(m.key) + [':'] + Print(m.value)
  }

  lemma PrintFour(a: Member, b: Member, c: Member, d: Member)
    ensures Print(Obj([a, b, c, d])) ==
      ['{'] + PrintMember(a) + [','] + PrintMember(b) + [','] + PrintMember(c) + [','] + PrintMember(d) + ['}']
  {
    hide PrintMembers, Quote;
    PrintMembersIs([a, b, c, d]);
    assert [a, b, c, d][1..] == [b, c, d];
    PrintMembersIs([b, c, d]);
    assert [b, c, d][1..] == [c, d];
    PrintMembersIs([c, d]);
    assert [c, d][1..] == [d];
    PrintMembersIs([d]);
    JoinFour(PrintMember(a), PrintMember(b), PrintMember(c), PrintMember(d));
  }

  lemma JoinFour(a: string, b: string, c: string, d: string)
    ensures ['{'] + (a + [','] + (b + [','] + (c + [','] + d))) + ['}']
         == ['{'] + a + [','] + b + [','] + c + [','] + d + ['}']
  {
  }

  // ---------------------------------------------------------------- sizes

  /** An escape takes at most six characters. */
  lemma {:induction false} EscapeLength(s: string)
    ensures |Escape(s)| <= 6 * |s|
  {
    if s != "" {
      EscapeLength(s[1..]);
    }
  }

  lemma {:induction false} EscapeAppend(s: string, t: string)
    ensures Escape(s + t) == Escape(s) + Escape(t)
  {
    if s == "" {
      assert s + t == t;
    } else {
      assert (s + t)[1..] == s[1..] + t;
      EscapeAppend(s[1..], t);
    }
  }

  predicate Plain(c: char) {
    c as int >= 32 && c != '"' && c != '\\'
  }

  lemma {:induction false} EscapePlain(s: string)
    requires forall i | 0 <= i < |s| :: Plain(s[i])
    ensures Escape(s) == s
  {
    if s != "" {
      EscapePlain(s[1..]);
      assert EscapeChar(s[0]) == [s[0]];
    }
  }

  // ---------------------------------------------------------------- no zero byte

  lemma {:induction false} QuoteNoNul(s: string)
    ensures Utf8.NoNul(Escape(s))
  {
    if s != "" {
      QuoteNoNul(s[1..]);
    }
  }

  lemma {:induction false} PrintNoNul(v: Json)
    ensures Utf8.NoNul(Print(v))
    decreases v, 0
  {
    match v
    case Str(s) => QuoteNoNul(s);
    case Num(n) => assert Digits(Show(if n < 0 then -n else n));
    case Arr(es) => if es != [] { ElemsNoNul(es); }
    case Obj(ms) => if ms != [] { MembersNoNul(ms); }
    case _ =>
  }

  lemma {:induction false} ElemsNoNul(es: seq<Json>)
    requires es != []
    ensures Utf8.NoNul(PrintElems(es))
    decreases es, 1
  {
    PrintNoNul(es[0]);
    if |es| > 1 {
      ElemsNoNul(es[1..]);
    }
  }

  lemma {:induction false} MembersNoNul(ms: seq<Member>)
    requires ms != []
    ensures Utf8.NoNul(PrintMembers(ms))
    decreases ms, 1
  {
    var Member(key, v) := ms[0];
    QuoteNoNul(key);
    PrintNoNul(v);
    if |ms| > 1 {
      MembersNoNul(ms[1..]);
    }
  }

  /** Serialised JSON never contains a zero byte: control characters are escaped. */
  lemma ToBytesNoZero(v: Json)
    ensures 0 !in ToBytes(v)
  {
    PrintNoNul(v);
    Utf8.EncodeNoZero(Print(v));
  }
}
