/** What a decoder makes of any bytes in front of a `:`, in terms of the bytes themselves. */
module LengthHeader {
  import opened Common
  import opened Decimal
  import opened Framing
  import Utf8

  // ---------------------------------------------------------------- numerals as bytes

  predicate AllDigits(d: Bytes) {
    forall i | 0 <= i < |d| :: 48 <= d[i] < 58
  }

  function NumberOf(d: Bytes): nat
    requires AllDigits(d)
  {
    if d == [] then 0 else 10 * NumberOf(d[..|d| - 1]) + (d[|d| - 1] as int - 48)
  }

  /** The bytes after an optional sign. */
  function Unsigned(part: Bytes): Bytes {
    if part != [] && part[0] == 43 then part[1..] else part
  }

  /** A decimal numeral of at most 2^64 - 1, with an optional sign and any number of leading zeros. */
  predicate Numeral(part: Bytes) {
    var d := Unsigned(part);
    d != [] && AllDigits(d) && NumberOf(d) <= 18446744073709551615
  }

  function NumeralValue(part: Bytes): nat
    requires Numeral(part)
  {
    NumberOf(Unsigned(part))
  }

  // ---------------------------------------------------------------- numerals as text

  predicate Low(b: Bytes) {
    forall i | 0 <= i < |b| :: b[i] < 0x80
  }

  function AsText(b: Bytes): (t: string)
    requires Low(b)
    ensures |t| == |b| && forall i | 0 <= i < |b| :: t[i] as int == b[i]
  {
    if b == [] then "" else [b[0] as char] + AsText(b[1..])
  }

  lemma {:induction false} DecodeLow(b: Bytes)
    requires Low(b)
    ensures Utf8.Decode(b) == Some(AsText(b))
  {
    if b != [] {
      assert Utf8.DecodeChar(b) == Some((b[0] as char, 1));
      DecodeLow(b[1..]);
    }
  }

  lemma {:induction false} ValueIs(d: Bytes, t: string)
    requires AllDigits(d) && |t| == |d| && forall i | 0 <= i < |d| :: t[i] as int == d[i]
    ensures Digits(t) && Value(t) == NumberOf(d)
  {
    if d != [] {
      ValueIs(d[..|d| - 1], t[..|t| - 1]);
    }
  }

  lemma ParseLow(part: Bytes)
    requires Low(part)
    ensures ParseUnsigned(AsText(part), USIZE_MAX) == if Numeral(part) then Some(NumeralValue(part)) else None
  {
    var t, d := AsText(part), Unsigned(part);
    var digits := if |t| > 0 && t[0] == '+' then t[1..] else t;
    assert |digits| == |d| && forall i | 0 <= i < |d| :: digits[i] as int == d[i];
    if AllDigits(d) {
      ValueIs(d, digits);
    } else {
      var i :| 0 <= i < |d| && !(48 <= d[i] < 58);
      assert !IsDigit(digits[i]);
    }
  }

  /** A length is read exactly from a numeral, as its value. */
  lemma ParseLengthIs(part: Bytes)
    ensures ParseLength(part) == if Numeral(part) then Some(NumeralValue(part)) else None
  {
    if Low(part) {
      DecodeLow(part);
      ParseLow(part);
    } else {
      var i :| 0 <= i < |part| && part[i] >= 0x80;
      assert !Numeral(part) by {
        if part[0] == 43 {
          assert i > 0 && part[1..][i - 1] == part[i];
        }
      }
      if Utf8.Decode(part).Some? {
        var t := Utf8.Decode(part).value;
        Utf8.EncodeDecode(part);
        if ParseUnsigned(t, USIZE_MAX).Some? {
          NumeralIsAscii(t);
          Utf8.EncodeAscii(t);
          assert false;
        }
      }
    }
  }

  lemma NumeralIsAscii(t: string)
    requires ParseUnsigned(t, USIZE_MAX).Some?
    ensures Utf8.Ascii(t)
  {
    forall i | 0 <= i < |t| ensures t[i] as int < 0x80 {
      if t[0] == '+' && i > 0 {
        assert t[1..][i - 1] == t[i];
      }
    }
  }

  // ---------------------------------------------------------------- the header

  /** The first `b` of `s` stands at `i`. */
  predicate FirstAt(s: Bytes, b: byte, i: nat) {
    i < |s| && s[i] == b && Absent(s, b, i)
  }

  /** The decoder is in front of a length header whose `:` stands at `e`. */
  predicate Facing<T>(s: Decoder<T>, e: nat) {
    !s.hasBody && !s.hasMeta && FirstAt(s.buff, 58, e)
  }

  /** Both lengths, the `+` at `p` and the `:` at `e`. */
  predicate GoodHeader(buff: Bytes, p: nat, e: nat)
    requires p < e <= |buff|
  {
    Numeral(buff[..p]) && Numeral(buff[p + 1..e])
  }

  /** No `+` in front of the `:`: the buffer is cleared, nothing else changes. */
  lemma WithoutPlus<T>(read: Reader<T>, s: Decoder<T>, e: nat)
    requires Facing(s, e) && Absent(s.buff, 43, e)
    ensures ReadBlock(read, s) == (s.(buff := []), Failed(MissingPlus))
  {
    hide Finish, ParseLength;
    IndexOfIs(s.buff, COLON, e);
    var meta := s.buff[..e];
    assert IndexOf(meta, PLUS) == None;
  }

  /** With a `+`: either both parts are numerals, and the decoder goes on into the message with their values; or
      the buffer is cleared, the first length being kept if it was one. */
  lemma WithPlus<T>(read: Reader<T>, s: Decoder<T>, p: nat, e: nat)
    requires Facing(s, e) && p < e && FirstAt(s.buff, 43, p)
    ensures ReadBlock(read, s) ==
      if GoodHeader(s.buff, p, e) then
        Finish(read, s.(hasMeta := true, jsonLength := NumeralValue(s.buff[..p]),
                        binaryLength := NumeralValue(s.buff[p + 1..e]), buff := s.buff[e + 1..]))
      else if Numeral(s.buff[..p]) then
        (s.(jsonLength := NumeralValue(s.buff[..p]), buff := []), Failed(BadMeta))
      else (s.(buff := []), Failed(BadMeta))
  {
    hide Finish, ParseLength, Numeral, NumeralValue, IndexOf;
    IndexOfIs(s.buff, COLON, e);
    var meta := s.buff[..e];
    IndexOfIs(meta, PLUS, p);
    assert meta[..p] == s.buff[..p] && meta[p + 1..] == s.buff[p + 1..e];
    ParseLengthIs(s.buff[..p]);
    ParseLengthIs(s.buff[p + 1..e]);
  }

  lemma FinishFailures<T>(read: Reader<T>, s: Decoder<T>)
    ensures Finish(read, s).1 != Failed(MissingPlus) && Finish(read, s).1 != Failed(BadMeta)
  {
  }

  lemma NoColon<T>(read: Reader<T>, s: Decoder<T>)
    requires s.hasBody || s.hasMeta || Absent(s.buff, 58, |s.buff|)
    ensures ReadBlock(read, s).1 != Failed(MissingPlus) && ReadBlock(read, s).1 != Failed(BadMeta)
  {
    hide Finish, ReadMeta;
    FinishFailures(read, s);
  }

  lemma WithPlusFails<T>(read: Reader<T>, s: Decoder<T>, p: nat, e: nat)
    requires Facing(s, e) && p < e && FirstAt(s.buff, 43, p)
    ensures ReadBlock(read, s).1 != Failed(MissingPlus)
    ensures ReadBlock(read, s).1 == Failed(BadMeta) <==> !GoodHeader(s.buff, p, e)
  {
    hide ReadBlock, Finish, Numeral, NumeralValue;
    WithPlus(read, s, p, e);
    if GoodHeader(s.buff, p, e) {
      FinishFailures(read, s.(hasMeta := true, jsonLength := NumeralValue(s.buff[..p]),
                              binaryLength := NumeralValue(s.buff[p + 1..e]), buff := s.buff[e + 1..]));
    }
  }

  lemma {:induction false} FirstExists(s: Bytes, b: byte, n: nat)
    requires n <= |s|
    ensures Absent(s, b, n) || exists i: nat :: i < n && FirstAt(s, b, i)
  {
    if n > 0 {
      FirstExists(s, b, n - 1);
      if Absent(s, b, n - 1) && s[n - 1] == b {
        assert FirstAt(s, b, n - 1);
      }
    }
  }

  /** Where the decoder stands decides between the two failures of the length header. */
  lemma Placed<T>(read: Reader<T>, s: Decoder<T>)
    ensures var o := ReadBlock(read, s).1; var facing := !s.hasBody && !s.hasMeta;
      && (o == Failed(MissingPlus) ==> facing && exists e: nat :: FirstAt(s.buff, 58, e) && Absent(s.buff, 43, e))
      && (o == Failed(BadMeta) ==> facing && exists e: nat, p: nat ::
            FirstAt(s.buff, 58, e) && FirstAt(s.buff, 43, p) && p < e && !GoodHeader(s.buff, p, e))
    ensures forall e: nat | !s.hasBody && !s.hasMeta && FirstAt(s.buff, 58, e) && Absent(s.buff, 43, e) ::
      ReadBlock(read, s).1 == Failed(MissingPlus)
    ensures forall e: nat, p: nat |
      !s.hasBody && !s.hasMeta && FirstAt(s.buff, 58, e) && FirstAt(s.buff, 43, p) && p < e ::
      ReadBlock(read, s).1 == Failed(BadMeta) <==> !GoodHeader(s.buff, p, e)
  {
    hide ReadBlock, GoodHeader;
    forall e: nat | !s.hasBody && !s.hasMeta && FirstAt(s.buff, 58, e) && Absent(s.buff, 43, e)
      ensures ReadBlock(read, s).1 == Failed(MissingPlus)
    {
      WithoutPlus(read, s, e);
    }
    forall e: nat, p: nat | !s.hasBody && !s.hasMeta && FirstAt(s.buff, 58, e) && FirstAt(s.buff, 43, p) && p < e
      ensures ReadBlock(read, s).1 == Failed(BadMeta) <==> !GoodHeader(s.buff, p, e)
    {
      WithPlusFails(read, s, p, e);
    }
    FirstExists(s.buff, 58, |s.buff|);
    if s.hasBody || s.hasMeta || Absent(s.buff, 58, |s.buff|) {
      NoColon(read, s);
    } else {
      var e: nat :| FirstAt(s.buff, 58, e);
      FirstExists(s.buff, 43, e);
      if !Absent(s.buff, 43, e) {
        var p: nat :| p < e && FirstAt(s.buff, 43, p);
        WithPlusFails(read, s, p, e);
      }
    }
  }

  /** The missing-plus failure strikes exactly in front of a length header with a `:` and no `+` before it. */
  lemma MissingPlusIff<T>(read: Reader<T>, s: Decoder<T>)
    ensures ReadBlock(read, s).1 == Failed(MissingPlus) <==>
      !s.hasBody && !s.hasMeta && exists e: nat :: FirstAt(s.buff, 58, e) && Absent(s.buff, 43, e)
  {
    hide ReadBlock, Numeral, FirstAt;
    Placed(read, s);
  }

  /** The bad-meta failure strikes exactly in front of a length header with a `+` of which one part is no
      numeral. */
  lemma BadMetaIff<T>(read: Reader<T>, s: Decoder<T>)
    ensures ReadBlock(read, s).1 == Failed(BadMeta) <==>
      !s.hasBody && !s.hasMeta &&
      exists e: nat, p: nat :: FirstAt(s.buff, 58, e) && FirstAt(s.buff, 43, p) && p < e && !GoodHeader(s.buff, p, e)
  {
    hide ReadBlock, Numeral, FirstAt;
    Placed(read, s);
  }

  // ---------------------------------------------------------------- frames without JSON

  /** A frame that announces no JSON is answered with its binary part and no header fields; without a binary part
      either it is never answered, whatever follows. */
  lemma EmptyJson<T>(read: Reader<T>, h: T, bin: Bytes, rest: Bytes)
    requires |bin| <= USIZE_MAX
    ensures ReadBlock(read, Idle(h, Frame([], bin) + rest)) ==
      if bin == [] then (Decoder(rest, true, false, 0, 0, [], h), NotYet)
      else (Decoder(rest, true, true, 0, |bin|, bin, h), Ready)
    ensures forall more: Bytes ::
      var stuck := Decoder(rest + more, true, false, 0, 0, [], h); ReadBlock(read, stuck) == (stuck, NotYet)
  {
    hide MetaStage;
    assert Frame([], bin) + rest == Meta(0, |bin|) + (bin + rest);
    MetaRead(Idle(h, Meta(0, |bin|) + (bin + rest)), 0, |bin|, bin + rest);
    InsideGoes(Decoder(rest, true, false, 0, 0, [], h));
    assert (bin + rest)[..|bin|] == bin && (bin + rest)[|bin|..] == rest;
    forall more: Bytes {
      InsideGoes(Decoder(rest + more, true, false, 0, 0, [], h));
    }
  }

  lemma InsideGoes<T>(s: Decoder<T>)
    requires s.hasMeta
    ensures MetaStage(s) == Go(s)
  {
  }
}
