/** What the decoder does with whole, pipelined, truncated and chunked frames, for every message. */
module Decoding {
  import opened Common
  import opened Decimal
  import opened Framing
  import Utf8

  /** A message as it goes on the wire: header text, binary part, and the fields the text carries. */
  datatype Message<T> = Message(json: Bytes, bin: Bytes, header: T)

  /** Rust lengths are `usize` values. */
  predicate Valid<T(==)>(read: Reader<T>, m: Message<T>) {
    m.json != [] && read(m.json) == Fields(m.header) && |m.json| <= USIZE_MAX && |m.bin| <= USIZE_MAX
  }

  function Wire<T>(m: Message<T>): Bytes {
    Frame(m.json, m.bin)
  }

  /** Length of the length header. */
  function H<T>(m: Message<T>): nat {
    |Meta(|m.json|, |m.bin|)|
  }

  function Total<T>(m: Message<T>): nat {
    H(m) + |m.json| + |m.bin|
  }

  function Body<T>(m: Message<T>): Bytes {
    m.json + m.bin
  }

  lemma WireParts<T>(m: Message<T>, rest: Bytes)
    ensures Wire(m) == Meta(|m.json|, |m.bin|) + Body(m)
    ensures Body(m)[..|m.json| + |m.bin|] == Body(m)
    ensures Wire(m) + rest == Meta(|m.json|, |m.bin|) + (Body(m) + rest)
  {
  }

  /** The decoder inside the message: length header read, `buff` pending. */
  function Inside<T>(m: Message<T>, h: T, buff: Bytes): Decoder<T> {
    Decoder(buff, true, false, |m.json|, |m.bin|, [], h)
  }

  /** The decoder holding the complete message, `rest` still buffered. */
  function Complete<T>(m: Message<T>, rest: Bytes): Decoder<T> {
    Decoder(rest, true, true, |m.json|, |m.bin|, m.bin, m.header)
  }

  lemma HeaderThenFinish<T>(read: Reader<T>, m: Message<T>, h0: T, t: Bytes)
    requires Valid(read, m)
    ensures ReadBlock(read, Idle(h0, Meta(|m.json|, |m.bin|) + t)) == Finish(read, Inside(m, h0, t))
  {
    MetaRead(Idle(h0, Meta(|m.json|, |m.bin|) + t), |m.json|, |m.bin|, t);
  }

  /** Everything that can be pending once the length header is read and nothing was drained. */
  lemma FinishUndrained<T>(read: Reader<T>, m: Message<T>, h0: T, rest: Bytes, a: nat)
    requires Valid(read, m) && a <= |m.json| + |m.bin|
    requires rest != [] ==> a == |m.json| + |m.bin|
    ensures var r := Finish(read, Inside(m, h0, Body(m)[..a] + rest));
            var j, b := |m.json|, |m.bin|;
      if a == j + b then r == (Complete(m, rest), Ready)
      else if a >= j then r == (Inside(m, m.header, m.bin[..a - j]), NotYet)
      else if b != 0 && a >= b then
        r == (Decoder(m.json[b..a], true, true, j, b, m.json[..b], h0), Ready)
      else r == (Inside(m, h0, m.json[..a]), NotYet)
  {
    var j, b := |m.json|, |m.bin|;
    var buff := Body(m)[..a] + rest;
    if a >= j {
      assert buff[..j] == m.json;
      assert buff[j..] == m.bin[..a - j] + rest;
      if a == j + b {
        assert m.bin[..a - j] == m.bin;
        assert (m.bin + rest)[b..] == rest && (m.bin + rest)[..b] == m.bin;
      } else {
        assert m.bin[..a - j] + [] == m.bin[..a - j];
      }
    } else {
      assert buff == m.json[..a];
      if b != 0 && a >= b {
        assert buff[..b] == m.json[..b] && buff[b..] == m.json[b..a];
      }
    }
  }

  // ---------------------------------------------------------------- round trip and pipelining

  /** Round trip: one frame followed by anything yields the message and leaves exactly the rest. */
  lemma RoundTrip<T>(read: Reader<T>, m: Message<T>, h0: T, rest: Bytes)
    requires Valid(read, m)
    ensures ReadBlock(read, Idle(h0, Wire(m) + rest)) == (Complete(m, rest), Ready)
  {
    hide MetaStage, Finish;
    WireParts(m, rest);
    HeaderThenFinish(read, m, h0, Body(m) + rest);
    FinishUndrained(read, m, h0, rest, |m.json| + |m.bin|);
  }

  /** What a reader took, and the state and answer it stopped with. */
  datatype Drained<T> = Drained(taken: seq<(T, Bytes)>, last: Decoder<T>, answer: Outcome)

  /** A reader that takes messages and resets until `read_block` stops answering `Some`. */
  function Drain<T>(read: Reader<T>, reset: T -> T, s: Decoder<T>, fuel: nat): Drained<T>
    decreases fuel
  {
    var (s', o) := ReadBlock(read, s);
    if o != Ready || fuel == 0 then Drained([], s', o)
    else
      var more := Drain(read, reset, Reset(s', reset(s'.header)), fuel - 1);
      more.(taken := [(s'.header, s'.binary)] + more.taken)
  }

  function Wires<T>(ms: seq<Message<T>>): Bytes {
    if ms == [] then [] else Wire(ms[0]) + Wires(ms[1..])
  }

  function Contents<T>(ms: seq<Message<T>>): seq<(T, Bytes)> {
    if ms == [] then [] else [(ms[0].header, ms[0].bin)] + Contents(ms[1..])
  }

  /** The header fields left by resetting after each of `ms`. */
  function HeaderAfter<T>(reset: T -> T, ms: seq<Message<T>>, h0: T): T {
    if ms == [] then h0 else HeaderAfter(reset, ms[1..], reset(ms[0].header))
  }

  /** Pipelining: the frames come out in order, and the reader is then exactly a reader of `rest`. */
  lemma {:induction false} Pipeline<T>(
        read: Reader<T>, reset: T -> T, ms: seq<Message<T>>, h0: T, rest: Bytes, fuel: nat)
    requires forall m | m in ms :: Valid(read, m)
    ensures var tail := Drain(read, reset, Idle(HeaderAfter(reset, ms, h0), rest), fuel);
      Drain(read, reset, Idle(h0, Wires(ms) + rest), |ms| + fuel) == tail.(taken := Contents(ms) + tail.taken)
    decreases |ms|
  {
    hide ReadBlock, Wire;
    if ms == [] {
      assert Wires(ms) + rest == rest;
    } else {
      var more := Wires(ms[1..]) + rest;
      assert Wires(ms) + rest == Wire(ms[0]) + more;
      RoundTrip(read, ms[0], h0, more);
      Pipeline(read, reset, ms[1..], reset(ms[0].header), rest, fuel);
      var tail := Drain(read, reset, Idle(HeaderAfter(reset, ms, h0), rest), fuel).taken;
      assert Contents(ms) + tail == [(ms[0].header, ms[0].bin)] + (Contents(ms[1..]) + tail);
    }
  }

  lemma EmptyWaits<T>(read: Reader<T>, h0: T)
    ensures ReadBlock(read, Idle(h0, [])) == (Idle(h0, []), NotYet)
  {
  }

  /** A buffer of n frames yields exactly the n messages and ends empty and waiting. */
  lemma PipelineAll<T>(read: Reader<T>, reset: T -> T, ms: seq<Message<T>>, blank: T)
    requires forall m | m in ms :: Valid(read, m)
    ensures Drain(read, reset, Idle(blank, Wires(ms)), |ms|)
         == Drained(Contents(ms), Idle(HeaderAfter(reset, ms, blank), []), NotYet)
  {
    hide ReadBlock, Wires, Contents, HeaderAfter, Valid;
    Pipeline(read, reset, ms, blank, [], 0);
    var h := HeaderAfter(reset, ms, blank);
    EmptyWaits(read, h);
    assert Drain(read, reset, Idle(h, []), 0) == Drained([], Idle(h, []), NotYet);
    assert Wires(ms) + [] == Wires(ms);
    assert Contents(ms) + [] == Contents(ms);
  }

  /** Between completion and reset `read_block` changes nothing and keeps answering `Some`. */
  lemma ReadBlockIdempotent<T>(read: Reader<T>, s: Decoder<T>)
    ensures var (s', o) := ReadBlock(read, s); o == Ready ==> ReadBlock(read, s') == (s', Ready)
  {
    hide ReadMeta;
  }

  // ---------------------------------------------------------------- failures

  /** The failures of the length header. */
  predicate HeaderError(e: Error) {
    e == MissingPlus || e == BadMeta || e == MetaTooLong
  }

  /** What each failure leaves behind: an empty buffer in front of a length header, an empty buffer inside a
      message, or the untouched offending text. */
  lemma FailureCases<T>(read: Reader<T>, s: Decoder<T>)
    requires ReadBlock(read, s).1.Failed?
    ensures var (s', o) := ReadBlock(read, s);
      && !s.hasBody && SameFields(s, s')
      && (HeaderError(o.error) ==> !s.hasMeta && !s'.hasMeta && s'.buff == [])
      && (!HeaderError(o.error) ==> s'.hasMeta && 0 < s'.jsonLength)
      && (o.error == BadJson ==> s'.buff == [])
      && (o.error == BadMessage ==>
            s'.jsonLength <= |s'.buff| && read(s'.buff[..s'.jsonLength]) == NotMessage)
  {
    hide ReadMeta, IndexOf;
    if !s.hasMeta && IndexOf(s.buff, COLON).Some? {
      ReadMetaFacts(s, IndexOf(s.buff, COLON).value);
    }
  }

  lemma ReadMetaFacts<T>(s: Decoder<T>, metaEnd: nat)
    requires metaEnd <= |s.buff|
    ensures var (s', e) := ReadMeta(s, metaEnd);
      && s' == s.(jsonLength := s'.jsonLength, binaryLength := s'.binaryLength)
      && (e.Some? ==> e.value == MissingPlus || e.value == BadMeta)
  {
  }

  /** Only the buffer, the lengths and the flag of the length header may differ. */
  predicate SameFields<T(==)>(s: Decoder<T>, s': Decoder<T>) {
    s'.header == s.header && s'.binary == s.binary && s'.hasBody == s.hasBody
  }

  /** The limit of 8192 bytes applies exactly to a buffer without any `:`. */
  lemma MetaTooLongIff<T>(read: Reader<T>, s: Decoder<T>)
    ensures ReadBlock(read, s).1 == Failed(MetaTooLong) <==>
      !s.hasBody && !s.hasMeta && Absent(s.buff, 58, |s.buff|) && |s.buff| > 8192
  {
    hide ReadMeta;
    if !s.hasMeta && IndexOf(s.buff, COLON).Some? {
      ReadMetaFacts(s, IndexOf(s.buff, COLON).value);
    }
  }

  /** After a failure of the length header the next frame is read as if nothing had happened. */
  lemma HeaderFailureRecovers<T>(read: Reader<T>, s: Decoder<T>, m: Message<T>)
    requires Valid(read, m) && ReadBlock(read, s).1.Failed? && HeaderError(ReadBlock(read, s).1.error)
    ensures var r := ReadBlock(read, Add(ReadBlock(read, s).0, Wire(m)));
      r == (Complete(m, []).(binary := if m.bin == [] then s.binary else m.bin), Ready)
  {
    hide ReadBlock, Meta, MetaStage, Finish;
    var s' := ReadBlock(read, s).0;
    FailureCases(read, s);
    WireParts(m, []);
    var t := Add(s', Wire(m));
    assert t.buff == Meta(|m.json|, |m.bin|) + Body(m);
    MetaRead(t, |m.json|, |m.bin|, Body(m));
    ReadsBody(read, t);
    FinishWhole(read, MetaStage(t).next, m);
  }

  lemma FinishWhole<T>(read: Reader<T>, s: Decoder<T>, m: Message<T>)
    requires Valid(read, m) && s.buff == Body(m) && s.jsonLength == |m.json| && s.binaryLength == |m.bin|
    ensures var done := s.(buff := [], header := m.header, hasBody := true);
      Finish(read, s) == (if m.bin == [] then done else done.(binary := m.bin), Ready)
  {
    assert Body(m)[..|m.json|] == m.json && Body(m)[|m.json|..] == m.bin;
    assert m.bin[..|m.bin|] == m.bin && m.bin[|m.bin|..] == [];
  }

  lemma ReadsBody<T>(read: Reader<T>, s: Decoder<T>)
    requires !s.hasBody && MetaStage(s).Go?
    ensures ReadBlock(read, s) == Finish(read, MetaStage(s).next)
  {
  }

  /** After a text that is not JSON the decoder is still inside the message: whatever comes next is taken for
      the rest of it, its own length header included. */
  lemma BadJsonStaysInside<T>(read: Reader<T>, s: Decoder<T>, more: Bytes)
    requires ReadBlock(read, s).1 == Failed(BadJson)
    ensures var s' := ReadBlock(read, s).0;
      ReadBlock(read, Add(s', more)) == Finish(read, s'.(buff := more))
  {
    hide Finish;
    FailureCases(read, s);
    assert [] + more == more;
  }

  /** After JSON without the required keys every further read fails the same way, whatever is added. */
  lemma BadMessageSticks<T>(read: Reader<T>, s: Decoder<T>, more: Bytes)
    requires ReadBlock(read, s).1 == Failed(BadMessage)
    ensures var s' := ReadBlock(read, s).0;
      ReadBlock(read, Add(s', more)) == (Add(s', more), Failed(BadMessage))
  {
    var s' := ReadBlock(read, s).0;
    FailureCases(read, s);
    assert (s'.buff + more)[..s'.jsonLength] == s'.buff[..s'.jsonLength];
  }

  /** No header text starts with a digit. */
  ghost predicate NoDigitHeader<T(!new)>(read: Reader<T>) {
    forall t: Bytes | t != [] && 48 <= t[0] < 58 :: !read(t).Fields?
  }

  lemma WireStartsWithDigit<T>(m: Message<T>)
    ensures Wire(m) != [] && 48 <= Wire(m)[0] < 58 && |m.json| < |Wire(m)|
  {
    WireLength(m);
    MetaShape(|m.json|, |m.bin|);
    Utf8.EncodeAscii(Show(|m.json|));
    assert IsDigit(Show(|m.json|)[0]);
  }

  /** A frame read as the rest of an older message is never that frame. */
  lemma TakenForRest<T(!new)>(read: Reader<T>, s: Decoder<T>, m: Message<T>)
    requires NoDigitHeader(read) && s.buff == Wire(m) && s.jsonLength > 0
    ensures var (s', o) := Finish(read, s); o != Ready || s'.jsonLength != |m.json|
  {
    hide Wire;
    WireStartsWithDigit(m);
    if s.jsonLength <= |s.buff| {
      assert s.buff[..s.jsonLength][0] == s.buff[0];
      assert !read(s.buff[..s.jsonLength]).Fields?;
    }
  }

  /** A decoder kept after a failure reads the next frame right if and only if the failure was one of the
      length header: after bad JSON it is lost in the old message, after a missing key it never moves on. */
  lemma RecoversIff<T(!new)>(read: Reader<T>, s: Decoder<T>, m: Message<T>)
    requires Valid(read, m) && NoDigitHeader(read) && ReadBlock(read, s).1.Failed?
    ensures var (s', o) := ReadBlock(read, s);
      ReadBlock(read, Add(s', Wire(m))) == (Complete(m, []).(binary := if m.bin == [] then s.binary else m.bin), Ready)
      <==> HeaderError(o.error)
  {
    hide ReadBlock, Finish, Wire, Valid, NoDigitHeader;
    var (s', o) := ReadBlock(read, s);
    match o.error
    case BadMessage => BadMessageSticks(read, s, Wire(m));
    case BadJson =>
      FailureCases(read, s);
      BadJsonStaysInside(read, s, Wire(m));
      TakenForRest(read, s'.(buff := Wire(m)), m);
    case _ => HeaderFailureRecovers(read, s, m);
  }

  /** A whole frame whose text the reader rejects. */
  lemma RejectedFrame<T>(read: Reader<T>, json: Bytes, bin: Bytes, h0: T, rest: Bytes)
    requires json != [] && |json| <= USIZE_MAX && |bin| <= USIZE_MAX && !read(json).Fields?
    ensures ReadBlock(read, Idle(h0, Frame(json, bin) + rest)).1 ==
      Failed(if read(json).NotJson? then BadJson else BadMessage)
  {
    hide MetaStage;
    var t := json + bin + rest;
    assert Frame(json, bin) + rest == Meta(|json|, |bin|) + t;
    MetaRead(Idle(h0, Meta(|json|, |bin|) + t), |json|, |bin|, t);
    assert t[..|json|] == json;
  }

  // ---------------------------------------------------------------- truncation and chunking

  /** The state after the first `p` bytes when every read so far waited. */
  function At<T>(m: Message<T>, h0: T, p: nat): Decoder<T>
    requires p < Total(m)
  {
    var a := p - H(m);
    if a < 0 then Idle(h0, Meta(|m.json|, |m.bin|)[..p])
    else if a < |m.json| then Inside(m, h0, m.json[..a])
    else Inside(m, m.header, m.bin[..a - |m.json|])
  }

  /** A read after `p` bytes does no harm: the binary is not taken from the JSON, and the JSON is not
      taken early when a later read could take it twice. */
  predicate SafeCut<T>(m: Message<T>, p: nat) {
    var a, j, b := p - H(m), |m.json|, |m.bin|;
    a < j + b && (b == 0 || (if j > b then !(b <= a < j) else !(j <= a < j + b)))
  }

  lemma ReadDrained<T>(read: Reader<T>, m: Message<T>, a: nat)
    requires Valid(read, m) && |m.bin| < |m.json| <= a <= |m.json| + |m.bin|
    ensures var r := ReadBlock(read, Inside(m, m.header, m.bin[..a - |m.json|]));
      r == if a == |m.json| + |m.bin| && m.bin != [] then (Complete(m, []), Ready)
           else (Inside(m, m.header, m.bin[..a - |m.json|]), NotYet)
  {
    if a == |m.json| + |m.bin| {
      assert m.bin[..|m.bin|] == m.bin && m.bin[|m.bin|..] == [];
    }
  }

  /** One read, from any safe point `p` to any later point `q`. */
  lemma ReadTo<T>(read: Reader<T>, m: Message<T>, h0: T, p: nat, q: nat)
    requires Valid(read, m) && p <= q <= Total(m) == |Wire(m)| && p < Total(m)
    requires SafeCut(m, p)
    ensures var r := ReadBlock(read, Add(At(m, h0, p), Wire(m)[p..q]));
      if q == Total(m) then r == (Complete(m, []), Ready)
      else if !SafeCut(m, q) && |m.json| > |m.bin| then
        r == (Decoder(m.json[|m.bin|..q - H(m)], true, true, |m.json|, |m.bin|, m.json[..|m.bin|], h0), Ready)
      else r == (At(m, h0, q), NotYet)
  {
    WireParts(m, []);
    if q < H(m) {
      ReadInHeader(read, m, h0, p, q);
    } else if p < H(m) {
      ReadPastHeader(read, m, h0, p, q);
    } else {
      ReadInBody(read, m, h0, p, q);
    }
  }

  lemma ReadInHeader<T>(read: Reader<T>, m: Message<T>, h0: T, p: nat, q: nat)
    requires Valid(read, m) && p <= q < H(m) <= |Wire(m)| && Wire(m) == Meta(|m.json|, |m.bin|) + Body(m)
    ensures ReadBlock(read, Add(At(m, h0, p), Wire(m)[p..q])) == (At(m, h0, q), NotYet)
  {
    var meta := Meta(|m.json|, |m.bin|);
    assert meta[..p] + Wire(m)[p..q] == meta[..q];
    MetaWaits(Idle(h0, meta[..q]), |m.json|, |m.bin|, q);
  }

  /** What `Finish` makes of `a` pending bytes, in the terms of the cuts. */
  lemma FinishAt<T>(read: Reader<T>, m: Message<T>, h0: T, a: nat)
    requires Valid(read, m) && a <= |m.json| + |m.bin|
    ensures var r := Finish(read, Inside(m, h0, Body(m)[..a])); var q := H(m) + a;
      if q == Total(m) then r == (Complete(m, []), Ready)
      else if !SafeCut(m, q) && |m.json| > |m.bin| then
        r == (Decoder(m.json[|m.bin|..a], true, true, |m.json|, |m.bin|, m.json[..|m.bin|], h0), Ready)
      else r == (At(m, h0, q), NotYet)
  {
    assert Body(m)[..a] + [] == Body(m)[..a];
    FinishUndrained(read, m, h0, [], a);
  }

  lemma CutPastHeader(meta: Bytes, body: Bytes, p: nat, q: nat)
    requires p < |meta| <= q <= |meta| + |body|
    ensures meta[..p] + (meta + body)[p..q] == meta + body[..q - |meta|]
  {
  }

  lemma ReadPastHeader<T>(read: Reader<T>, m: Message<T>, h0: T, p: nat, q: nat)
    requires Valid(read, m) && p < H(m) <= q <= Total(m) && |Wire(m)| == Total(m)
    requires Wire(m) == Meta(|m.json|, |m.bin|) + Body(m)
    ensures ReadBlock(read, Add(At(m, h0, p), Wire(m)[p..q])) == Finish(read, Inside(m, h0, Body(m)[..q - H(m)]))
    ensures var r := Finish(read, Inside(m, h0, Body(m)[..q - H(m)]));
      if q == Total(m) then r == (Complete(m, []), Ready)
      else if !SafeCut(m, q) && |m.json| > |m.bin| then
        r == (Decoder(m.json[|m.bin|..q - H(m)], true, true, |m.json|, |m.bin|, m.json[..|m.bin|], h0), Ready)
      else r == (At(m, h0, q), NotYet)
  {
    hide MetaStage, Finish;
    var meta := Meta(|m.json|, |m.bin|);
    CutPastHeader(meta, Body(m), p, q);
    HeaderThenFinish(read, m, h0, Body(m)[..q - H(m)]);
    FinishAt(read, m, h0, q - H(m));
  }

  lemma ReadInBody<T>(read: Reader<T>, m: Message<T>, h0: T, p: nat, q: nat)
    requires Valid(read, m) && H(m) <= p <= q <= Total(m) && p < Total(m) && |Wire(m)| == Total(m)
    requires SafeCut(m, p)
    requires Wire(m) == Meta(|m.json|, |m.bin|) + Body(m)
    ensures var r := ReadBlock(read, Add(At(m, h0, p), Wire(m)[p..q]));
      if q == Total(m) then r == (Complete(m, []), Ready)
      else if !SafeCut(m, q) && |m.json| > |m.bin| then
        r == (Decoder(m.json[|m.bin|..q - H(m)], true, true, |m.json|, |m.bin|, m.json[..|m.bin|], h0), Ready)
      else r == (At(m, h0, q), NotYet)
  {
    hide Meta, Frame, Finish, ReadBlock, SafeCut;
    var h, j := H(m), |m.json|;
    CutInBody(Meta(|m.json|, |m.bin|), Body(m), p, q);
    if p - h < j {
      JoinTake(m.json, m.bin, p - h, q - h);
      InsideFinishes(read, m, h0, Body(m)[..q - h]);
      FinishAt(read, m, h0, q - h);
    } else {
      JoinDrop(m.json, m.bin, p - h, q - h);
      DrainedMeansShort(m, p);
      ReadDrained(read, m, q - h);
      DrainedIsSafe(m, q);
    }
  }

  lemma DrainedMeansShort<T>(m: Message<T>, p: nat)
    requires SafeCut(m, p) && p < Total(m) && |m.json| <= p - H(m)
    ensures |m.bin| < |m.json|
  {
  }

  lemma DrainedIsSafe<T>(m: Message<T>, q: nat)
    requires |m.bin| < |m.json| <= q - H(m) && q <= Total(m)
    ensures q < Total(m) ==> SafeCut(m, q)
    ensures q < Total(m) ==> forall h0 :: At(m, h0, q) == Inside(m, m.header, m.bin[..q - H(m) - |m.json|])
  {
  }

  lemma InsideFinishes<T>(read: Reader<T>, m: Message<T>, h: T, buff: Bytes)
    ensures ReadBlock(read, Inside(m, h, buff)) == Finish(read, Inside(m, h, buff))
  {
  }

  lemma CutInBody(meta: Bytes, body: Bytes, p: nat, q: nat)
    requires |meta| <= p <= q <= |meta| + |body|
    ensures (meta + body)[p..q] == body[p - |meta|..q - |meta|]
  {
  }

  lemma JoinTake(json: Bytes, bin: Bytes, a: nat, b: nat)
    requires a <= |json| && a <= b <= |json| + |bin|
    ensures json[..a] + (json + bin)[a..b] == (json + bin)[..b]
  {
  }

  lemma JoinDrop(json: Bytes, bin: Bytes, a: nat, b: nat)
    requires |json| <= a <= b <= |json| + |bin|
    ensures bin[..a - |json|] + (json + bin)[a..b] == bin[..b - |json|]
  {
  }

  lemma WireLength<T>(m: Message<T>)
    ensures |Wire(m)| == Total(m) && H(m) > 0 && SafeCut(m, 0)
  {
    MetaShape(|m.json|, |m.bin|);
  }

  /** Truncation: a proper prefix never fails, and is answered exactly when the cut lies inside the
      JSON with at least as many JSON bytes as the binary has; then those bytes pass for the binary. */
  lemma Truncated<T>(read: Reader<T>, m: Message<T>, h0: T, n: nat)
    requires Valid(read, m) && n < |Wire(m)|
    ensures var r := ReadBlock(read, Idle(h0, Wire(m)[..n]));
            var a, j, b := n - H(m), |m.json|, |m.bin|;
      && !r.1.Failed?
      && (r.1 == Ready <==> b != 0 && b <= a < j)
      && (r.1 == Ready ==> r.0.header == h0 && r.0.binary == m.json[..b])
  {
    WireLength(m);
    assert Add(At(m, h0, 0), Wire(m)[0..n]) == Idle(h0, Wire(m)[..n]);
    ReadTo(read, m, h0, 0, n);
  }

  /** `add` then `read_block` for every chunk. */
  function Feed<T>(read: Reader<T>, s: Decoder<T>, chunks: seq<Bytes>): (r: (seq<Outcome>, Decoder<T>))
    ensures |r.0| == |chunks|
    decreases |chunks|
  {
    if chunks == [] then ([], s)
    else
      var (s', o) := ReadBlock(read, Add(s, chunks[0]));
      var (os, last) := Feed(read, s', chunks[1..]);
      ([o] + os, last)
  }

  function Concat(chunks: seq<Bytes>): Bytes {
    if chunks == [] then [] else chunks[0] + Concat(chunks[1..])
  }

  /** Every read but the last waits and the last one completes. */
  predicate OnTime(os: seq<Outcome>) {
    os != [] && os[|os| - 1] == Ready && forall i | 0 <= i < |os| - 1 :: os[i] == NotYet
  }

  /** Every cut between two chunks, the first chunk starting at `p`, is safe. */
  predicate SafeCuts<T>(m: Message<T>, p: nat, chunks: seq<Bytes>)
    decreases |chunks|
  {
    |chunks| <= 1 || (SafeCut(m, p + |chunks[0]|) && SafeCuts(m, p + |chunks[0]|, chunks[1..]))
  }

  /** After a harmful early JSON read too few bytes are left: no later read completes. */
  lemma {:induction false} Doomed<T>(read: Reader<T>, m: Message<T>, s: Decoder<T>, a: nat, chunks: seq<Bytes>)
    requires 0 < |m.json| <= |m.bin|
    requires s.hasMeta && !s.hasBody && s.jsonLength == |m.json| && s.binaryLength == |m.bin|
    requires |s.buff| + |m.json| <= a && a + |Concat(chunks)| <= |m.json| + |m.bin|
    ensures Ready !in Feed(read, s, chunks).0
    decreases |chunks|
  {
    if chunks != [] {
      NeverEnough(read, m, Add(s, chunks[0]));
      Doomed(read, m, ReadBlock(read, Add(s, chunks[0])).0, a + |chunks[0]|, chunks[1..]);
    }
  }

  lemma NeverEnough<T>(read: Reader<T>, m: Message<T>, s: Decoder<T>)
    requires 0 < |m.json| <= |m.bin|
    requires s.hasMeta && !s.hasBody && s.jsonLength == |m.json| && s.binaryLength == |m.bin|
    requires |s.buff| <= |m.bin|
    ensures var (s', o) := ReadBlock(read, s);
      && o != Ready && s'.hasMeta && !s'.hasBody && |s'.buff| <= |s.buff|
      && s'.jsonLength == |m.json| && s'.binaryLength == |m.bin|
  {
  }

  lemma OnTimeCons(o: Outcome, os: seq<Outcome>)
    requires os != []
    ensures OnTime([o] + os) <==> o == NotYet && OnTime(os)
  {
    var all := [o] + os;
    assert all[|all| - 1] == os[|os| - 1] && all[0] == o;
    assert forall i | 0 <= i < |os| - 1 :: all[i + 1] == os[i];
    if OnTime(all) {
      forall i | 0 <= i < |os| - 1 ensures os[i] == NotYet {
        assert all[i + 1] == os[i];
      }
    }
  }

  lemma {:induction false} ChunkedFrom<T>(read: Reader<T>, m: Message<T>, h0: T, p: nat, chunks: seq<Bytes>)
    requires Valid(read, m) && p < Total(m) == |Wire(m)| && SafeCut(m, p)
    requires chunks != [] && Concat(chunks) == Wire(m)[p..]
    ensures var (os, last) := Feed(read, At(m, h0, p), chunks);
      && (OnTime(os) <==> SafeCuts(m, p, chunks))
      && (OnTime(os) ==> last == Complete(m, []))
    decreases |chunks|
  {
    hide ReadBlock, Wire, H, SafeCut, At;
    var q := p + |chunks[0]|;
    var s := Add(At(m, h0, p), chunks[0]);
    var r := ReadBlock(read, s);
    assert chunks[0] == Wire(m)[p..q] && Concat(chunks[1..]) == Wire(m)[q..];
    ReadTo(read, m, h0, p, q);
    var more := Feed(read, r.0, chunks[1..]);
    assert Feed(read, At(m, h0, p), chunks) == ([r.1] + more.0, more.1);
    if |chunks| == 1 {
      assert chunks[1..] == [];
    } else {
      OnTimeCons(r.1, more.0);
      if q == Total(m) {
        NoSafeCutAtEnd(m, q);
      } else if SafeCut(m, q) {
        ChunkedFrom(read, m, h0, q, chunks[1..]);
      } else if |m.json| <= |m.bin| {
        UnsafeShort(m, h0, q);
        Doomed(read, m, At(m, h0, q), q - H(m), chunks[1..]);
      }
    }
  }

  lemma NoSafeCutAtEnd<T>(m: Message<T>, q: nat)
    requires q == Total(m)
    ensures !SafeCut(m, q)
  {
  }

  lemma UnsafeShort<T>(m: Message<T>, h0: T, q: nat)
    requires q < Total(m) == |Wire(m)| && !SafeCut(m, q) && |m.json| <= |m.bin|
    ensures |m.json| <= q - H(m) && At(m, h0, q) == Inside(m, m.header, m.bin[..q - H(m) - |m.json|])
    ensures q + |Wire(m)[q..]| == H(m) + |m.json| + |m.bin|
  {
  }

  /** Chunking: reading after every chunk of one frame waits until the last chunk and then gives exactly
      the one-shot result if and only if every cut before it is safe. */
  lemma Chunked<T>(read: Reader<T>, m: Message<T>, h0: T, chunks: seq<Bytes>)
    requires Valid(read, m) && chunks != [] && Concat(chunks) == Wire(m)
    ensures var (os, last) := Feed(read, Idle(h0, []), chunks);
      OnTime(os) && last == ReadBlock(read, Idle(h0, Wire(m))).0 <==> SafeCuts(m, 0, chunks)
  {
    hide ReadBlock, Wire, SafeCut, Feed;
    WireLength(m);
    assert Wire(m)[0..] == Wire(m) && Wire(m) + [] == Wire(m);
    assert At(m, h0, 0) == Idle(h0, []);
    RoundTrip(read, m, h0, []);
    ChunkedFrom(read, m, h0, 0, chunks);
  }

  /** A frame without binary part may be cut anywhere, as long as the last chunk is not empty. */
  lemma {:induction false} ChunkedNoBinary<T>(m: Message<T>, p: nat, chunks: seq<Bytes>)
    requires m.bin == [] && chunks != [] && chunks[|chunks| - 1] != []
    requires p + |Concat(chunks)| == Total(m)
    ensures SafeCuts(m, p, chunks)
    decreases |chunks|
  {
    if |chunks| > 1 {
      ConcatLast(chunks[1..]);
      ChunkedNoBinary(m, p + |chunks[0]|, chunks[1..]);
    }
  }

  lemma {:induction false} ConcatLast(chunks: seq<Bytes>)
    requires chunks != []
    ensures |Concat(chunks)| >= |chunks[|chunks| - 1]|
    decreases |chunks|
  {
    if |chunks| > 1 {
      ConcatLast(chunks[1..]);
    }
  }

  /** The chunked reading of a frame whose JSON is longer than its binary part fails at the very first read
      if the first chunk ends inside the JSON but holds as many JSON bytes as the binary part is long: that
      read answers, with JSON bytes for a binary part and no header fields. */
  lemma ChunkingFails<T>(read: Reader<T>, m: Message<T>, h0: T, n: nat)
    requires Valid(read, m) && m.bin != [] && |m.bin| < |m.json|
    requires H(m) + |m.bin| <= n < H(m) + |m.json|
    ensures n < |Wire(m)| && !OnTime(Feed(read, Idle(h0, []), [Wire(m)[..n], Wire(m)[n..]]).0)
    ensures var s := ReadBlock(read, Add(Idle(h0, []), Wire(m)[..n])).0; s.header == h0 && s.binary == m.json[..|m.bin|]
  {
    hide ReadBlock, Wire, Feed, OnTime;
    WireLength(m);
    var chunks := [Wire(m)[..n], Wire(m)[n..]];
    assert chunks[1..] == [Wire(m)[n..]];
    assert Concat(chunks) == Wire(m) by {
      assert Concat(chunks[1..]) == Wire(m)[n..] + Concat(chunks[1..][1..]);
    }
    ChunkedFrom(read, m, h0, 0, chunks) by {
      assert Wire(m)[0..] == Wire(m);
    }
    assert At(m, h0, 0) == Idle(h0, []);
    Truncated(read, m, h0, n);
    assert [] + Wire(m)[..n] == Wire(m)[..n];
  }
}
