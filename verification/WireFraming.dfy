/** The request encoder (grok_register/http_protocol.py) against a reference reader of the Protocol
    Buffers encoding ("Base 128 Varints", "Length-Delimited Records") inside the
    Length-Prefixed-Message of gRPC over HTTP2. Texts are given as their UTF-8 bytes. */
module WireFraming {
  import opened Prelude

  const FRAME_LIMIT := 0x1_0000_0000
  const VARINT_BYTES := 10

  // ---------------------------------------------------------------- the encoder

  function Varint(n: nat): Bytes
  {
    if n > 0x7F then [n % 128 + 128] + Varint(n / 128) else [n]
  }

  method PbVarint(n: nat) returns (parts: Bytes)
    ensures parts == Varint(n)
  {
    parts := [];
    var m := n;
    while m > 0x7F
      invariant parts + Varint(m) == Varint(n)
    {
      assert parts + Varint(m) == (parts + [m % 128 + 128]) + Varint(m / 128);
      parts := parts + [m % 128 + 128];
      m := m / 128;
    }
    parts := parts + [m];
  }

  /** `struct.pack` refuses a value outside its format. */
  datatype WireError = StructError

  /** A length-delimited field; the tag is packed in one byte. */
  function PbBytes(number: int, raw: Bytes): Result<Bytes, WireError>
  {
    var tag := number * 8 + 2;
    if 0 <= tag < 256 then Ok([tag] + Varint(|raw|) + raw) else Err(StructError)
  }

  function Both(a: Result<Bytes, WireError>, b: Result<Bytes, WireError>): Result<Bytes, WireError>
  {
    if a.Err? then a else if b.Err? then b else Ok(a.value + b.value)
  }

  datatype Field = Field(number: int, raw: Bytes)

  function Encode(fs: seq<Field>): Result<Bytes, WireError>
    decreases |fs|
  {
    if fs == [] then Ok([]) else Both(PbBytes(fs[0].number, fs[0].raw), Encode(fs[1..]))
  }

  function BigEndian(n: nat): (b: Bytes)
    requires n < FRAME_LIMIT
    ensures |b| == 4
  {
    [n / 0x100_0000, n / 0x1_0000 % 256, n / 0x100 % 256, n % 256]
  }

  function ConnectFrame(inner: Bytes): Result<Bytes, WireError>
  {
    if |inner| < FRAME_LIMIT then Ok([0] + BigEndian(|inner|) + inner) else Err(StructError)
  }

  // ---------------------------------------------------------------- the reader

  function ReadVarint(bs: Bytes, left: nat): (r: Option<(nat, Bytes)>)
    ensures r.Some? ==> |r.value.1| < |bs|
    decreases left
  {
    if bs == [] || left == 0 then None
    else if bs[0] < 128 then Some((bs[0], bs[1..]))
    else
      var more := ReadVarint(bs[1..], left - 1);
      if more.None? then None else Some((bs[0] - 128 + 128 * more.value.0, more.value.1))
  }

  /** One length-delimited record and what follows it. */
  function ReadField(bs: Bytes): (r: Option<(Field, Bytes)>)
    ensures r.Some? ==> |r.value.1| < |bs|
  {
    var tag := ReadVarint(bs, VARINT_BYTES);
    if tag.None? || tag.value.0 % 8 != 2 || tag.value.0 / 8 == 0 then None
    else
      var size := ReadVarint(tag.value.1, VARINT_BYTES);
      if size.None? || size.value.0 > |size.value.1| then None
      else
        var (n, rest) := size.value;
        Some((Field(tag.value.0 / 8, rest[..n]), rest[n..]))
  }

  function Decode(bs: Bytes): Option<seq<Field>>
    decreases |bs|
  {
    if bs == [] then Some([])
    else
      var first := ReadField(bs);
      if first.None? then None
      else
        var rest := Decode(first.value.1);
        if rest.None? then None else Some([first.value.0] + rest.value)
  }

  function FromBigEndian(a: nat, b: nat, c: nat, d: nat): nat { ((a * 256 + b) * 256 + c) * 256 + d }

  /** The message of an uncompressed frame and what follows it. */
  function ReadFrame(bs: Bytes): Option<(Bytes, Bytes)>
  {
    if |bs| < 5 || bs[0] != 0 then None
    else
      var n := FromBigEndian(bs[1], bs[2], bs[3], bs[4]);
      if 5 + n > |bs| then None else Some((bs[5..5 + n], bs[5 + n..]))
  }

  // ---------------------------------------------------------------- varints and frames

  function Pow128(k: nat): nat { if k == 0 then 1 else 128 * Pow128(k - 1) }

  lemma {:induction false} VarintRoundTrip(n: nat, rest: Bytes, left: nat)
    requires 0 < left && n < Pow128(left)
    ensures ReadVarint(Varint(n) + rest, left) == Some((n, rest))
    decreases left
  {
    var bs := Varint(n) + rest;
    if n > 0x7F {
      assert n / 128 < Pow128(left - 1);
      assert left > 1;
      VarintRoundTrip(n / 128, rest, left - 1);
      assert bs[1..] == Varint(n / 128) + rest;
    } else {
      assert bs[1..] == rest;
    }
  }

  lemma TenBytesAreEnough(n: nat)
    requires n < FRAME_LIMIT
    ensures n < Pow128(VARINT_BYTES)
  {
    assert Pow128(5) == 34359738368;
    assert Pow128(10) == 128 * 128 * 128 * 128 * 128 * Pow128(5);
  }

  /** No reader gets a number out of fewer bytes than the encoder uses for it. */
  lemma {:induction false} VarintIsShortest(bs: Bytes, left: nat)
    requires ReadVarint(bs, left).Some?
    ensures var (n, rest) := ReadVarint(bs, left).value; |Varint(n)| <= |bs| - |rest|
    decreases left
  {
    if bs[0] >= 128 {
      VarintIsShortest(bs[1..], left - 1);
    }
  }

  lemma BigEndianRoundTrip(n: nat)
    requires n < FRAME_LIMIT
    ensures var b := BigEndian(n); FromBigEndian(b[0], b[1], b[2], b[3]) == n
  {
    var h, m, l := n / 0x100_0000, n / 0x1_0000, n / 0x100;
    assert m == h * 256 + m % 256;
    assert l == m * 256 + l % 256;
    assert n == l * 256 + n % 256;
  }

  /** A frame is made if and only if the message is under 2^32 bytes, and then the reader finds
      exactly that message, whatever follows. */
  lemma FrameRoundTrip(inner: Bytes, rest: Bytes)
    ensures ConnectFrame(inner).Ok? <==> |inner| < 0x1_0000_0000
    ensures ConnectFrame(inner).Ok? ==> ReadFrame(ConnectFrame(inner).value + rest) == Some((inner, rest))
  {
    if ConnectFrame(inner).Ok? {
      var n := |inner|;
      var bs := ConnectFrame(inner).value + rest;
      BigEndianRoundTrip(n);
      hide BigEndian, FromBigEndian;
      assert bs == [0] + BigEndian(n) + inner + rest;
      assert bs[5..5 + n] == inner && bs[5 + n..] == rest;
    }
  }

  // ---------------------------------------------------------------- field lists

  lemma OneByteVarint(bs: Bytes, left: nat)
    requires bs != [] && left > 0 && bs[0] < 128
    ensures ReadVarint(bs, left) == Some((bs[0], bs[1..]))
  {
  }

  lemma FieldRoundTrip(f: Field, rest: Bytes)
    requires 1 <= f.number <= 15 && |f.raw| < FRAME_LIMIT
    ensures PbBytes(f.number, f.raw).Ok?
    ensures ReadField(PbBytes(f.number, f.raw).value + rest) == Some((f, rest))
  {
    var tag := f.number * 8 + 2;
    var bs := PbBytes(f.number, f.raw).value + rest;
    assert bs[0] == tag && bs[1..] == Varint(|f.raw|) + (f.raw + rest);
    TenBytesAreEnough(|f.raw|);
    VarintRoundTrip(|f.raw|, f.raw + rest, VARINT_BYTES);
    OneByteVarint(bs, VARINT_BYTES);
    hide ReadVarint, Varint;
    assert tag % 8 == 2 && tag / 8 == f.number;
    assert (f.raw + rest)[..|f.raw|] == f.raw && (f.raw + rest)[|f.raw|..] == rest;
  }

  /** What the fields take at least in any valid encoding. */
  function LeastSize(fs: seq<Field>): nat
    decreases |fs|
  {
    if fs == [] then 0
    else
      (if fs[0].number > 0 then |Varint(fs[0].number * 8 + 2)| else 0)
      + |Varint(|fs[0].raw|)| + |fs[0].raw| + LeastSize(fs[1..])
  }

  lemma ReadFieldSize(bs: Bytes)
    requires ReadField(bs).Some?
    ensures var (f, rest) := ReadField(bs).value;
            && f.number > 0
            && |Varint(f.number * 8 + 2)| + |Varint(|f.raw|)| + |f.raw| <= |bs| - |rest|
  {
    VarintIsShortest(bs, VARINT_BYTES);
    VarintIsShortest(ReadVarint(bs, VARINT_BYTES).value.1, VARINT_BYTES);
    hide ReadVarint, Varint;
    var tag := ReadVarint(bs, VARINT_BYTES).value.0;
    assert tag / 8 * 8 + 2 == tag;
  }

  lemma {:induction false} DecodeSize(bs: Bytes)
    requires Decode(bs).Some?
    ensures LeastSize(Decode(bs).value) <= |bs|
    ensures forall i | 0 <= i < |Decode(bs).value| :: Decode(bs).value[i].number > 0
    decreases |bs|
  {
    if bs != [] {
      hide ReadField, Varint;
      ReadFieldSize(bs);
      DecodeSize(ReadField(bs).value.1);
      var fs := Decode(bs).value;
      assert fs[1..] == Decode(ReadField(bs).value.1).value;
    }
  }

  lemma {:induction false} EncodeSize(fs: seq<Field>)
    requires Encode(fs).Ok? && forall i | 0 <= i < |fs| :: fs[i].number > 0
    ensures |Encode(fs).value| <= LeastSize(fs)
    ensures (exists i :: 0 <= i < |fs| && fs[i].number > 15) ==> |Encode(fs).value| < LeastSize(fs)
    decreases |fs|
  {
    if fs != [] {
      EncodeSize(fs[1..]);
      var tag := fs[0].number * 8 + 2;
      assert |Varint(tag)| >= 1 && (fs[0].number > 15 ==> |Varint(tag)| >= 2);
      if exists i :: 0 <= i < |fs| && fs[i].number > 15 {
        var i :| 0 <= i < |fs| && fs[i].number > 15;
        assert i > 0 ==> fs[1..][i - 1].number > 15;
      }
    }
  }

  lemma {:induction false} SmallNumbersRoundTrip(fs: seq<Field>)
    requires forall i | 0 <= i < |fs| :: 1 <= fs[i].number <= 15 && |fs[i].raw| < FRAME_LIMIT
    ensures Encode(fs).Ok? && Decode(Encode(fs).value) == Some(fs)
    decreases |fs|
  {
    if fs != [] {
      SmallNumbersRoundTrip(fs[1..]);
      hide ReadField, PbBytes;
      FieldRoundTrip(fs[0], Encode(fs[1..]).value);
      assert fs == [fs[0]] + fs[1..];
    }
  }

  /** A list of fields under 2^32 bytes each survives the wire if and only if every field number is
      between 1 and 15: the tag of a larger one is misread or refused. */
  lemma FieldsRoundTripIff(fs: seq<Field>)
    requires forall i | 0 <= i < |fs| :: |fs[i].raw| < FRAME_LIMIT
    ensures (Encode(fs).Ok? && Decode(Encode(fs).value) == Some(fs))
            <==> forall i | 0 <= i < |fs| :: 1 <= fs[i].number <= 15
  {
    if Encode(fs).Ok? && Decode(Encode(fs).value) == Some(fs) {
      DecodeSize(Encode(fs).value);
      EncodeSize(fs);
    } else if forall i | 0 <= i < |fs| :: 1 <= fs[i].number <= 15 {
      SmallNumbersRoundTrip(fs);
    }
  }

  // ---------------------------------------------------------------- nested messages

  datatype Tree = Text(raw: Bytes) | Message(parts: Parts)
  datatype Parts = NoPart | Part(number: int, value: Tree, rest: Parts)

  function EncodeTree(t: Tree): Result<Bytes, WireError>
  {
    match t
    case Text(raw) => Ok(raw)
    case Message(parts) => EncodeParts(parts)
  }

  function EncodeParts(ps: Parts): Result<Bytes, WireError>
  {
    match ps
    case NoPart => Ok([])
    case Part(number, value, rest) =>
      var inner := EncodeTree(value);
      if inner.Err? then inner else Both(PbBytes(number, inner.value), EncodeParts(rest))
  }

  /** Reads a message of the schema that `shape` gives by its nesting and field numbers; the texts of
      `shape` are not looked at. */
  function DecodeTree(shape: Tree, bs: Bytes): Option<Tree>
  {
    match shape
    case Text(_) => Some(Text(bs))
    case Message(parts) =>
      var r := DecodeParts(parts, bs);
      if r.None? then None else Some(Message(r.value))
  }

  function DecodeParts(shape: Parts, bs: Bytes): Option<Parts>
  {
    match shape
    case NoPart => if bs == [] then Some(NoPart) else None
    case Part(number, value, rest) =>
      var first := ReadField(bs);
      if first.None? || first.value.0.number != number then None
      else
        var inner, others := DecodeTree(value, first.value.0.raw), DecodeParts(rest, first.value.1);
        if inner.None? || others.None? then None else Some(Part(number, inner.value, others.value))
  }

  function Schema(t: Tree): Tree
  {
    match t
    case Text(_) => Text([])
    case Message(parts) => Message(SchemaParts(parts))
  }

  function SchemaParts(ps: Parts): Parts
  {
    match ps
    case NoPart => NoPart
    case Part(number, value, rest) => Part(number, Schema(value), SchemaParts(rest))
  }

  predicate Numbered(t: Tree) { t.Message? ==> NumberedParts(t.parts) }

  predicate NumberedParts(ps: Parts)
  {
    ps.Part? ==> 1 <= ps.number <= 15 && Numbered(ps.value) && NumberedParts(ps.rest)
  }

  /** Every message, however nested, with field numbers 1 to 15 and under 2^32 bytes is read back
      exactly by a reader that knows only its schema. */
  lemma {:induction false} TreeRoundTrip(t: Tree)
    requires Numbered(t) && EncodeTree(t).Ok? && |EncodeTree(t).value| < FRAME_LIMIT
    ensures DecodeTree(Schema(t), EncodeTree(t).value) == Some(t)
  {
    if t.Message? {
      PartsRoundTrip(t.parts);
    }
  }

  lemma {:induction false} PartsRoundTrip(ps: Parts)
    requires NumberedParts(ps) && EncodeParts(ps).Ok? && |EncodeParts(ps).value| < FRAME_LIMIT
    ensures DecodeParts(SchemaParts(ps), EncodeParts(ps).value) == Some(ps)
  {
    if ps.Part? {
      var inner, rest := EncodeTree(ps.value).value, EncodeParts(ps.rest).value;
      SizeOfPart(ps.number, inner);
      hide PbBytes, ReadField;
      TreeRoundTrip(ps.value);
      PartsRoundTrip(ps.rest);
      FieldRoundTrip(Field(ps.number, inner), rest);
    }
  }

  lemma SizeOfPart(number: int, raw: Bytes)
    ensures PbBytes(number, raw).Ok? ==> |PbBytes(number, raw).value| > |raw|
  {
  }

  lemma {:induction false} NumberedEncodes(ps: Parts)
    requires NumberedParts(ps)
    ensures EncodeParts(ps).Ok?
    decreases ps
  {
    if ps.Part? {
      if ps.value.Message? {
        NumberedEncodes(ps.value.parts);
      }
      NumberedEncodes(ps.rest);
    }
  }

  // ---------------------------------------------------------------- the session request

  function Two(a: Bytes, b: Bytes): Tree { Message(Part(1, Text(a), Part(2, Text(b), NoPart))) }

  /** The message that the encoder's code builds: the two credentials stand directly in field 1. */
  function SessionTree(email: Bytes, password: Bytes, turnstile: Bytes, castle: Bytes): Tree
  {
    Message(Part(1, Two(email, password), Part(4, Two(turnstile, castle), NoPart)))
  }

  /** The message that its documentation describes: field 1 is a message whose own field 1 holds them. */
  function DocumentedTree(email: Bytes, password: Bytes, turnstile: Bytes, castle: Bytes): Tree
  {
    Message(Part(1, Message(Part(1, Two(email, password), NoPart)), Part(4, Two(turnstile, castle), NoPart)))
  }

  /** `encode_create_session_request`, step by step. */
  method EncodeCreateSession(email: Bytes, password: Bytes, turnstile: Bytes, castle: Bytes)
    returns (r: Result<Bytes, WireError>)
    ensures r == EncodeTree(SessionTree(email, password, turnstile, castle)) && r.Ok?
  {
    hide PbBytes, Two;
    SmallTagsAreFine();
    var emailPassword := Both(PbBytes(1, email), PbBytes(2, password));
    var credentials := PbBytes(1, emailPassword.value);
    var anti := Both(PbBytes(1, turnstile), PbBytes(2, castle));
    r := Both(credentials, PbBytes(4, anti.value));
    PairEncodes(email, password);
    PairEncodes(turnstile, castle);
    var pair, other := Two(email, password), Two(turnstile, castle);
    Alone(4, other);
    PartStep(1, pair, Part(4, other, NoPart));
  }

  lemma PartStep(number: int, t: Tree, rest: Parts)
    requires EncodeTree(t).Ok?
    ensures EncodeTree(Message(Part(number, t, rest))) ==
            Both(PbBytes(number, EncodeTree(t).value), EncodeParts(rest))
  {
    hide PbBytes;
  }

  lemma SmallTagsAreFine()
    ensures forall number, raw | 1 <= number <= 15 :: PbBytes(number, raw).Ok?
  {
  }

  lemma PairEncodes(a: Bytes, b: Bytes)
    ensures EncodeTree(Two(a, b)) == Both(PbBytes(1, a), PbBytes(2, b))
  {
    hide PbBytes;
    Alone(2, Text(b));
    assert EncodeTree(Text(a)) == Ok(a) && EncodeTree(Text(b)) == Ok(b);
    assert EncodeParts(Part(1, Text(a), Part(2, Text(b), NoPart))) == Both(PbBytes(1, a), PbBytes(2, b));
  }

  lemma Alone(number: int, t: Tree)
    requires EncodeTree(t).Ok?
    ensures EncodeParts(Part(number, t, NoPart)) == PbBytes(number, EncodeTree(t).value)
    ensures EncodeTree(Message(Part(number, t, NoPart))) == PbBytes(number, EncodeTree(t).value)
  {
    hide PbBytes;
    var one := PbBytes(number, EncodeTree(t).value);
    if one.Ok? {
      assert one.value + [] == one.value;
    }
  }

  /** The four texts of a framed session request are read back exactly, if the request fits a frame. */
  lemma SessionRoundTrip(email: Bytes, password: Bytes, turnstile: Bytes, castle: Bytes, rest: Bytes)
    requires var body := EncodeTree(SessionTree(email, password, turnstile, castle));
             body.Ok? && |body.value| < FRAME_LIMIT
    ensures var t := SessionTree(email, password, turnstile, castle);
            var frame := ConnectFrame(EncodeTree(t).value);
            && frame.Ok?
            && ReadFrame(frame.value + rest) == Some((EncodeTree(t).value, rest))
            && DecodeTree(SessionTree([], [], [], []), EncodeTree(t).value) == Some(t)
  {
    var t := SessionTree(email, password, turnstile, castle);
    hide EncodeTree, DecodeTree, ConnectFrame, ReadFrame;
    SessionSchema(email, password, turnstile, castle);
    TreeRoundTrip(t);
    FrameRoundTrip(EncodeTree(t).value, rest);
  }

  lemma PairSchema(a: Bytes, b: Bytes)
    ensures Numbered(Two(a, b)) && Schema(Two(a, b)) == Two([], [])
  {
    var last := Part(2, Text(b), NoPart);
    assert NumberedParts(last) && SchemaParts(last) == Part(2, Text([]), NoPart);
    assert Numbered(Text(a)) && Schema(Text(a)) == Text([]);
  }

  lemma SessionSchema(email: Bytes, password: Bytes, turnstile: Bytes, castle: Bytes)
    ensures var t := SessionTree(email, password, turnstile, castle);
            Numbered(t) && Schema(t) == SessionTree([], [], [], [])
  {
    PairSchema(email, password);
    PairSchema(turnstile, castle);
    hide Two;
    var last := Part(4, Two(turnstile, castle), NoPart);
    assert NumberedParts(NoPart);
    assert NumberedParts(last) && SchemaParts(last) == Part(4, Two([], []), NoPart);
    assert NumberedParts(Part(1, Two(email, password), last));
  }

  /** No request that fits a frame is readable under the documented layout. */
  lemma DocumentedLayoutRefused(email: Bytes, password: Bytes, turnstile: Bytes, castle: Bytes)
    requires var body := EncodeTree(SessionTree(email, password, turnstile, castle));
             body.Ok? && |body.value| < FRAME_LIMIT
    ensures DecodeTree(DocumentedTree([], [], [], []),
                       EncodeTree(SessionTree(email, password, turnstile, castle)).value).None?
  {
    hide PbBytes, ReadField, Two;
    SmallTagsAreFine();
    PairEncodes(email, password);
    PairEncodes(turnstile, castle);
    var pair, other := Two(email, password), Two(turnstile, castle);
    var inner := EncodeTree(pair).value;
    Alone(4, other);
    PartStep(1, pair, Part(4, other, NoPart));
    SizeOfPart(1, inner);
    SizeOfPart(1, email);
    SizeOfPart(2, password);
    var second := PbBytes(2, password).value;
    FieldRoundTrip(Field(1, inner), PbBytes(4, EncodeTree(other).value).value);
    FieldRoundTrip(Field(1, email), second);
    assert inner == PbBytes(1, email).value + second;
    var documented := Message(Part(1, Two([], []), NoPart));
    assert ReadField(inner).value.1 == second != [];
    assert DecodeParts(NoPart, second).None?;
    assert DecodeParts(documented.parts, inner).None?;
    assert DecodeTree(documented, inner).None?;
  }
}
