/** Which texts the JSON parser accepts: on text without escapes, nothing but what the printer writes. */
module JsonText {
  import opened Common
  import opened Decimal
  import opened Json
  import Utf8

  /** Text in which every character stands for itself. */
  predicate Bare(s: string) {
    '\\' !in s
  }

  lemma CharIs(s: string)
    requires Bare(s) && s != "" && ParseChar(s).Some?
    ensures ParseChar(s) == Some((s[0], s[1..])) && EscapeChar(s[0]) == [s[0]]
  {
  }

  lemma {:induction false} CharsAre(s: string)
    requires Bare(s)
    ensures var r := ParseChars(s); r.Some? ==> s == Escape(r.value.0) + ['"'] + r.value.1
    decreases |s|
  {
    hide ParseChar, EscapeChar;
    if ParseChars(s).Some? {
      assert s == [s[0]] + s[1..];
      if s[0] != '"' {
        CharIs(s);
        CharsAre(s[1..]);
        var t := ParseChars(s[1..]).value.0;
        assert ([s[0]] + t)[1..] == t;
      }
    }
  }

  lemma {:induction false} ShowValue(d: string)
    requires Digits(d) && d != "" && (|d| > 1 ==> d[0] != '0')
    ensures Show(Value(d)) == d
    ensures |d| > 1 ==> Value(d) >= 10
    ensures d[0] != '0' ==> Value(d) > 0
  {
    var n := |d| - 1;
    if n == 0 {
      assert Value(d[..0]) == 0;
    } else {
      ShowValue(d[..n]);
      assert d == d[..n] + [d[n]];
      assert Value(d) / 10 == Value(d[..n]) && Value(d) % 10 == d[n] as int - 48;
    }
  }

  lemma NaturalIs(t: string)
    ensures var r := ParseNatural(t); r.Some? ==> t == Show(r.value.0) + r.value.1
  {
    if ParseNatural(t).Some? {
      var n := DigitRun(t);
      ShowValue(t[..n]);
      assert t == t[..n] + t[n..];
    }
  }

  lemma NumIs(s: string)
    ensures var r := ParseNum(s); r.Some? ==> r.value.0.Num? && s == Print(r.value.0) + r.value.1
  {
    hide ParseNatural, Show;
    if ParseNum(s).Some? {
      var negative := s != "" && s[0] == '-';
      NaturalIs(if negative then s[1..] else s);
      PrintNumber(ParseNum(s).value.0.n);
      if negative {
        assert s == ['-'] + s[1..];
      }
    }
  }

  lemma PrintNumber(n: Integer)
    ensures Print(Num(n)) == if n < 0 then ['-'] + Show(-n) else Show(n)
  {
  }

  lemma WordIs(s: string, word: string)
    requires StartsWith(s, word)
    ensures s == word + s[|word|..]
  {
  }

  /** What is left of the text is bare again. */
  lemma BareTail(s: string, n: nat)
    requires Bare(s) && n <= |s|
    ensures Bare(s[n..])
  {
  }

  lemma BareRest(s: string, head: string, rest: string)
    requires Bare(s) && s == head + rest
    ensures Bare(rest)
  {
    assert rest == s[|head|..];
  }

  lemma WordsArePrinted(s: string, d: nat, e: bool)
    requires s != "" && s[0] in ['n', 't', 'f'] && ParseValue(s, d, e).Some?
    ensures var (v, rest) := ParseValue(s, d, e).value; s == Print(v) + rest
  {
    hide ParseElems, ParseMembers;
    WordIs(s, if s[0] == 'n' then "null" else if s[0] == 't' then "true" else "false");
  }

  predicate Empty(s: string) {
    |s| > 1 && ((s[0] == '[' && s[1] == ']') || (s[0] == '{' && s[1] == '}'))
  }

  lemma EmptyIsPrinted(s: string, d: nat, e: bool)
    requires Empty(s) && ParseValue(s, d, e).Some?
    ensures var (v, rest) := ParseValue(s, d, e).value; s == Print(v) + rest
  {
    hide ParseElems, ParseMembers;
    assert s == [s[0], s[1]] + s[2..];
  }

  /** A value is only read from its own print. */
  lemma {:induction false} ValueIsPrinted(s: string, d: nat, e: bool)
    requires Bare(s)
    ensures var r := ParseValue(s, d, e); r.Some? ==> s == Print(r.value.0) + r.value.1
    decreases |s|, 0
  {
    hide Escape, Show, PrintElems, PrintMembers, ParseChars, ParseNum, ParseElems, ParseMembers, Bare, StartsWith;
    if ParseValue(s, d, e).Some? {
      BareTail(s, 1);
      if s[0] in ['n', 't', 'f'] {
        WordsArePrinted(s, d, e);
      } else if Empty(s) {
        EmptyIsPrinted(s, d, e);
      } else if s[0] == '"' {
        CharsAre(s[1..]);
        assert s == ['"'] + s[1..];
      } else if s[0] == '[' {
        ElemsArePrinted(s[1..], d - 1, e);
        assert s == ['['] + s[1..];
      } else if s[0] == '{' {
        MembersArePrinted(s[1..], d - 1, e);
        assert s == ['{'] + s[1..];
      } else {
        NumIs(s);
      }
    }
  }

  lemma {:induction false} ElemsArePrinted(s: string, d: nat, e: bool)
    requires Bare(s)
    ensures var r := ParseElems(s, d, e);
      r.Some? ==> r.value.0 != [] && s == PrintElems(r.value.0) + [']'] + r.value.1
    decreases |s|, 1
  {
    hide Print, ParseValue, Bare, PrintElems;
    if ParseElems(s, d, e).Some? {
      ValueIsPrinted(s, d, e);
      var (v, rest) := ParseValue(s, d, e).value;
      BareRest(s, Print(v), rest);
      assert rest == [rest[0]] + rest[1..];
      PrintElemsIs([v], e);
      if rest[0] != ']' {
        BareTail(rest, 1);
        ElemsArePrinted(rest[1..], d, e);
        var es := ParseElems(rest[1..], d, e).value.0;
        assert ([v] + es)[1..] == es;
        PrintElemsIs([v] + es, e);
      }
    }
  }

  /** The pieces a list of members is read from. */
  lemma MembersRead(s: string, d: nat, e: bool) returns (key: string, after: string, v: Json, rest: string)
    requires ParseMembers(s, d, e).Some?
    ensures s != "" && s[0] == '"' && ParseChars(s[1..]) == Some((key, after))
    ensures after != "" && after[0] == ':' && ParseValue(after[1..], d, e) == Some((v, rest)) && |rest| < |s|
    ensures rest != ""
    ensures var m := Member(key, v);
      if rest[0] == '}' then ParseMembers(s, d, e) == Some(([m], rest[1..]))
      else rest[0] == ',' && ParseMembers(s, d, e) == Prepend(m, ParseMembers(rest[1..], d, e))
  {
    hide ParseChars, ParseValue;
    var r := ParseChars(s[1..]).value;
    key, after := r.0, r.1;
    var q := ParseValue(after[1..], d, e).value;
    v, rest := q.0, q.1;
  }

  lemma Pieces(s: string, key: string, after: string, value: string, rest: string)
    requires s != "" && s[0] == '"' && s[1..] == Escape(key) + ['"'] + after
    requires after != "" && after[0] == ':' && after[1..] == value + rest
    ensures s == (Quote(key) + [':'] + value) + rest
  {
    hide Escape;
    assert s == ['"'] + s[1..] && after == [':'] + after[1..];
  }

  lemma LastMember(s: string, key: string, v: Json, rest: string)
    requires s == (Quote(key) + [':'] + Print(v)) + rest && rest != "" && rest[0] == '}'
    ensures s == PrintMembers([Member(key, v)]) + ['}'] + rest[1..]
  {
    hide Quote, Print, PrintMembers;
    assert rest == ['}'] + rest[1..];
    PrintMembersIs([Member(key, v)]);
  }

  lemma MoreMembers(s: string, key: string, v: Json, rest: string, ms: seq<Member>, tail: string)
    requires s == (Quote(key) + [':'] + Print(v)) + rest && rest != "" && rest[0] == ',' && ms != []
    requires rest[1..] == PrintMembers(ms) + ['}'] + tail
    ensures s == PrintMembers([Member(key, v)] + ms) + ['}'] + tail
  {
    hide Quote, Print, PrintMembers;
    assert rest == [','] + rest[1..];
    assert ([Member(key, v)] + ms)[1..] == ms;
    PrintMembersIs([Member(key, v)] + ms);
  }

  lemma BareAfter(s: string, key: string, after: string)
    requires Bare(s) && s != "" && s[1..] == Escape(key) + ['"'] + after && after != ""
    ensures Bare(after[1..])
  {
    hide Bare, Escape;
    BareTail(s, 1);
    BareRest(s[1..], Escape(key) + ['"'], after);
    BareTail(after, 1);
  }

  /** What is left behind each piece of a member is bare. */
  lemma BarePieces(s: string, key: string, after: string, value: string, rest: string)
    requires Bare(s) && s != "" && s[1..] == Escape(key) + ['"'] + after
    requires after != "" && after[1..] == value + rest && rest != ""
    ensures Bare(after[1..]) && Bare(rest[1..])
  {
    hide Bare, Escape;
    BareAfter(s, key, after);
    BareRest(after[1..], value, rest);
    BareTail(rest, 1);
  }

  lemma {:induction false} MembersArePrinted(s: string, d: nat, e: bool)
    requires Bare(s)
    ensures var r := ParseMembers(s, d, e);
      r.Some? ==> r.value.0 != [] && s == PrintMembers(r.value.0) + ['}'] + r.value.1
    decreases |s|, 1
  {
    hide Print, ParseValue, ParseMembers, ParseChars, Bare, PrintMembers, Quote, Escape;
    if ParseMembers(s, d, e).Some? {
      var key, after, v, rest := MembersRead(s, d, e);
      BareTail(s, 1);
      CharsAre(s[1..]);
      BareAfter(s, key, after);
      ValueIsPrinted(after[1..], d, e);
      BarePieces(s, key, after, Print(v), rest);
      Pieces(s, key, after, Print(v), rest);
      if rest[0] == '}' {
        LastMember(s, key, v, rest);
      } else {
        MembersArePrinted(rest[1..], d, e);
        var (ms, tail) := ParseMembers(rest[1..], d, e).value;
        MoreMembers(s, key, v, rest, ms, tail);
      }
    }
  }

  lemma {:induction false} BareBytes(s: string)
    requires 92 !in Utf8.Encode(s)
    ensures Bare(s)
  {
    if s != "" {
      assert Utf8.Encode(s) == Utf8.EncodeChar(s[0]) + Utf8.Encode(s[1..]);
      BareBytes(s[1..]);
      assert Utf8.EncodeChar('\\') == [92];
      assert s == [s[0]] + s[1..];
    }
  }

  /** How characters are printed inside a string: quotes and backslashes after a backslash, five control characters
      as letters, the others as four lower-case hexadecimal digits, everything else as it is. */
  lemma EscapesAre(c: char)
    ensures c == '"' || c == '\\' ==> EscapeChar(c) == ['\\', c]
    ensures EscapeChar('\U{8}') == "\\b" && EscapeChar('\U{C}') == "\\f"
    ensures EscapeChar('\t') == "\\t" && EscapeChar('\n') == "\\n" && EscapeChar('\r') == "\\r"
    ensures c as int < 32 && c as int !in {8, 9, 10, 12, 13} ==>
      EscapeChar(c) == ['\\', 'u', '0', '0', "01"[c as int / 16], "0123456789abcdef"[c as int % 16]]
    ensures c as int >= 32 && c != '"' && c != '\\' ==> EscapeChar(c) == [c]
  {
  }

  /** `c` is the hexadecimal digit `d`, in either case. */
  predicate IsHex(c: char, d: nat) {
    d < 16 && c in ["0123456789abcdef"[d], "0123456789ABCDEF"[d]]
  }

  /** The escapes the parser understands beside the printed ones: a slash, and four hexadecimal digits of either
      case for any character up to U+FFFF; the numbers of surrogates are refused. */
  lemma EscapesRead(h: string, d: seq<nat>, rest: string)
    requires |h| == 4 && |d| == 4 && forall i | 0 <= i < 4 :: IsHex(h[i], d[i])
    ensures ParseChar("\\/" + rest) == Some(('/', rest))
    ensures var n := 4096 * d[0] + 256 * d[1] + 16 * d[2] + d[3];
      ParseChar("\\u" + h + rest) == if n < 0xD800 || 0xE000 <= n < 0x10000 then Some((n as char, rest)) else None
  {
    var s := "\\u" + h + rest;
    assert s[6..] == rest && s[2..6] == h;
    assert s[2] == h[0] && s[3] == h[1] && s[4] == h[2] && s[5] == h[3];
    HexIs(h[0], d[0]);
    HexIs(h[1], d[1]);
    HexIs(h[2], d[2]);
    HexIs(h[3], d[3]);
    assert ("\\/" + rest)[2..] == rest;
  }

  lemma HexIs(c: char, d: nat)
    requires IsHex(c, d)
    ensures HexValue(c) == d
  {
  }

  /** Every integer from the smallest `i64` to the largest `u64` is read exactly. */
  lemma IntegersRead(n: int)
    requires -9223372036854775808 <= n <= 18446744073709551615
    ensures FromBytes(Utf8.Encode(if n < 0 then "-" + Show(-n) else Show(n)), SERDE) == Some(Num(n))
  {
    FromBytesToBytes(Num(n), SERDE);
  }

  /** The parser accepts bytes without a backslash as a value exactly if they are that value's own bytes and it
      nests less deeply than the limit: no other spelling, no trailing text, no leading zero, no stray comma. */
  lemma AcceptedIff(b: Bytes, limits: Limits, v: Json)
    requires limits.depth >= 1 && 92 !in b
    ensures FromBytes(b, limits) == Some(v) <==> b == ToBytes(v) && Depth(v, limits.empties) < limits.depth
  {
    hide ParseValue, Print, Depth;
    FromBytesToBytes(v, limits);
    if FromBytes(b, limits) == Some(v) {
      Utf8.EncodeDecode(b);
      var s := Utf8.Decode(b).value;
      BareBytes(s);
      ValueIsPrinted(s, limits.depth, limits.empties);
      assert s == Print(v) + "" == Print(v);
    }
  }
}
