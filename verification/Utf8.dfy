/** UTF-8, the bridge between Rust strings (sequences of Unicode scalar values) and bytes. */
module Utf8 {
  import opened Common

  function EncodeChar(c: char): (r: Bytes)
    ensures 1 <= |r| <= 4
  {
    var n := c as int;
    if n < 0x80 then [n]
    else if n < 0x800 then [0xC0 + n / 64, 0x80 + n % 64]
    else if n < 0x10000 then [0xE0 + n / 4096, 0x80 + n / 64 % 64, 0x80 + n % 64]
    else [0xF0 + n / 262144, 0x80 + n / 4096 % 64, 0x80 + n / 64 % 64, 0x80 + n % 64]
  }

  /** `str::as_bytes`. */
  function Encode(s: string): Bytes {
    if |s| == 0 then [] else EncodeChar(s[0]) + Encode(s[1..])
  }

  predicate Cont(b: byte) {
    0x80 <= b < 0xC0
  }

  function Scalar(n: int, low: nat): Option<char> {
    if n < low then None
    else if n < 0xD800 then Some(n as char)
    else if 0xE000 <= n < 0x110000 then Some(n as char)
    else None
  }

  /** The payload bits of the byte at `i`. */
  function Bits(s: Bytes, i: nat, mark: int): int
    requires i < |s|
  {
    s[i] - mark
  }

  /** The first scalar value of `s` with its byte count; overlong forms and surrogates are errors. */
  function DecodeChar(s: Bytes): (r: Option<(char, nat)>)
    ensures r.Some? ==> 1 <= r.value.1 <= |s|
  {
    if |s| == 0 then None
    else
      var b: int := s[0];
      var shape: (int, nat, nat) :=
        if b < 0x80 then (b, 0, 1)
        else if 0xC0 <= b < 0xE0 && |s| >= 2 && Cont(s[1]) then
          (Bits(s, 0, 0xC0) * 64 + Bits(s, 1, 0x80), 0x80, 2)
        else if 0xE0 <= b < 0xF0 && |s| >= 3 && Cont(s[1]) && Cont(s[2]) then
          (Bits(s, 0, 0xE0) * 4096 + Bits(s, 1, 0x80) * 64 + Bits(s, 2, 0x80), 0x800, 3)
        else if 0xF0 <= b < 0xF8 && |s| >= 4 && Cont(s[1]) && Cont(s[2]) && Cont(s[3]) then
          (Bits(s, 0, 0xF0) * 262144 + Bits(s, 1, 0x80) * 4096 + Bits(s, 2, 0x80) * 64 + Bits(s, 3, 0x80), 0x10000, 4)
        else (-1, 0, 1);
      var (n, low, size) := shape;
      match Scalar(n, low)
      case None => None
      case Some(c) => Some((c, size))
  }

  /** `str::from_utf8`. */
  function Decode(s: Bytes): Option<string>
    decreases |s|
  {
    if |s| == 0 then Some("")
    else
      match DecodeChar(s)
      case None => None
      case Some((c, size)) =>
        match Decode(s[size..])
        case None => None
        case Some(t) => Some([c] + t)
  }

  lemma DecodeCharEncode(c: char, rest: Bytes)
    ensures DecodeChar(EncodeChar(c) + rest) == Some((c, |EncodeChar(c)|))
  {
    var n := c as int;
    var s := EncodeChar(c) + rest;
    assert forall i | 0 <= i < |EncodeChar(c)| :: s[i] == EncodeChar(c)[i];
    if 0x800 <= n < 0x10000 {
      assert n / 4096 * 64 + n / 64 % 64 == n / 64;
    } else if 0x10000 <= n {
      assert n / 262144 * 64 + n / 4096 % 64 == n / 4096;
      assert n / 4096 * 64 + n / 64 % 64 == n / 64;
    }
  }

  /** `from_utf8` undoes `as_bytes`. */
  lemma {:induction false} DecodeEncode(s: string)
    ensures Decode(Encode(s)) == Some(s)
  {
    hide DecodeChar, EncodeChar;
    if |s| > 0 {
      DecodeCharEncode(s[0], Encode(s[1..]));
      assert Encode(s)[|EncodeChar(s[0])|..] == Encode(s[1..]);
      DecodeEncode(s[1..]);
      assert [s[0]] + s[1..] == s;
    }
  }

  lemma SixBits(a: nat, b: nat)
    requires b < 64
    ensures (a * 64 + b) / 64 == a && (a * 64 + b) % 64 == b
  {
  }

  lemma TwelveBits(a: nat, b: nat, c: nat)
    requires b < 64 && c < 64
    ensures var n := a * 4096 + b * 64 + c; n / 4096 == a && n / 64 % 64 == b && n % 64 == c
  {
    SixBits(a * 64 + b, c);
    SixBits(a, b);
  }

  lemma EighteenBits(a: nat, b: nat, c: nat, d: nat)
    requires b < 64 && c < 64 && d < 64
    ensures var n := a * 262144 + b * 4096 + c * 64 + d;
      n / 262144 == a && n / 4096 % 64 == b && n / 64 % 64 == c && n % 64 == d
  {
    SixBits(a * 4096 + b * 64 + c, d);
    TwelveBits(a, b, c);
    var n := a * 262144 + b * 4096 + c * 64 + d;
    assert n / 4096 == a * 64 + b;
    SixBits(a, b);
  }

  /** What `DecodeChar` reads is exactly the encoding of what it gives. */
  lemma DecodedIsEncoded(s: Bytes)
    requires DecodeChar(s).Some?
    ensures var (c, size) := DecodeChar(s).value; EncodeChar(c) == s[..size]
  {
    var (c, size) := DecodeChar(s).value;
    if size == 2 {
      SixBits(Bits(s, 0, 0xC0), Bits(s, 1, 0x80));
    } else if size == 3 {
      TwelveBits(Bits(s, 0, 0xE0), Bits(s, 1, 0x80), Bits(s, 2, 0x80));
    } else if size == 4 {
      EighteenBits(Bits(s, 0, 0xF0), Bits(s, 1, 0x80), Bits(s, 2, 0x80), Bits(s, 3, 0x80));
    }
  }

  /** `from_utf8` accepts nothing but encodings: no replacement, no overlong form. */
  lemma {:induction false} EncodeDecode(b: Bytes)
    ensures Decode(b).Some? ==> Encode(Decode(b).value) == b
    decreases |b|
  {
    hide DecodeChar, EncodeChar;
    if Decode(b).Some? && b != [] {
      var (c, size) := DecodeChar(b).value;
      DecodedIsEncoded(b);
      EncodeDecode(b[size..]);
      var t := Decode(b[size..]).value;
      assert ([c] + t)[1..] == t;
      assert b == b[..size] + b[size..];
    }
  }

  /** One character of each length: e acute, the euro sign, a face. */
  lemma KnownEncodings()
    ensures Encode("A\U{E9}\U{20AC}\U{1F600}") == [0x41, 0xC3, 0xA9, 0xE2, 0x82, 0xAC, 0xF0, 0x9F, 0x98, 0x80]
  {
    var s := "A\U{E9}\U{20AC}\U{1F600}";
    assert s[1..] == "\U{E9}\U{20AC}\U{1F600}" && s[2..] == "\U{20AC}\U{1F600}" && s[3..] == "\U{1F600}";
    assert s[1..][1..] == s[2..] && s[2..][1..] == s[3..] && s[3..][1..] == "";
  }

  lemma {:induction false} EncodeAppend(s: string, t: string)
    ensures Encode(s + t) == Encode(s) + Encode(t)
  {
    if |s| == 0 {
      assert s + t == t;
    } else {
      assert (s + t)[1..] == s[1..] + t;
      EncodeAppend(s[1..], t);
    }
  }

  predicate Ascii(s: string) {
    forall i | 0 <= i < |s| :: s[i] as int < 0x80
  }

  lemma {:induction false} EncodeAscii(s: string)
    requires Ascii(s)
    ensures |Encode(s)| == |s|
    ensures forall i | 0 <= i < |s| :: Encode(s)[i] == s[i] as int
  {
    if |s| > 0 {
      EncodeAscii(s[1..]);
    }
  }

  predicate NoNul(s: string) {
    forall i | 0 <= i < |s| :: s[i] as int != 0
  }

  /** A string without NUL encodes without a zero byte. */
  lemma {:induction false} EncodeNoZero(s: string)
    requires NoNul(s)
    ensures 0 !in Encode(s)
  {
    if |s| > 0 {
      EncodeNoZero(s[1..]);
    }
  }

  /** One to four bytes a character. */
  lemma {:induction false} EncodeLength(s: string)
    ensures |s| <= |Encode(s)| <= 4 * |s|
  {
    if |s| > 0 {
      EncodeLength(s[1..]);
    }
  }

  lemma EncodeNonEmpty(s: string)
    requires s != ""
    ensures Encode(s) != []
  {
  }
}
