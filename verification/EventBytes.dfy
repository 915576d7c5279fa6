/** Program events as bytes: eight bytes that name the kind, then the fields one after the other in
 * little-endian order.  The AMM's decoders insist that nothing follows; the bonding curve's do not. */
module EventBytes {
  import opened Options
  import opened FieldCodec

  datatype Field = U8 | U16 | U64 | I64 | Bool | Pubkey | Str

  /** A public key stays its 32 bytes and a string its UTF-8 bytes. */
  datatype Value = Num(n: int) | Flag(b: bool) | Key(key: Bytes) | Text(text: Bytes)

  datatype Kind = Trade | Create | Migrate | Buy | Sell | CreatePool | Deposit | Withdraw

  datatype Event = Event(kind: Kind, fields: seq<Value>)

  const Pow64: int := 0x1_0000_0000_0000_0000
  const Pow63: int := 0x8000_0000_0000_0000
  const Pow32: int := 0x1_0000_0000

  /** How one kind of event is laid out: the bytes that name it, whether its decoder checks that it has
   * reached the end, and its fields. */
  datatype Schema = Schema(kind: Kind, discs: seq<Bytes>, strict: bool, layout: seq<Field>)

  const TradeDisc: Bytes := [189, 219, 127, 211, 78, 230, 97, 238]
  const CreateDisc: Bytes := [27, 114, 169, 77, 222, 235, 99, 118]
  const CreateV2Disc: Bytes := [90, 133, 138, 45, 185, 75, 7, 42]
  const MigrateDisc: Bytes := [189, 233, 93, 185, 92, 148, 234, 148]
  const BuyDisc: Bytes := [103, 244, 82, 31, 44, 245, 119, 119]
  const SellDisc: Bytes := [62, 47, 55, 10, 165, 3, 220, 42]
  const CreatePoolDisc: Bytes := [177, 49, 12, 210, 160, 118, 167, 116]
  const DepositDisc: Bytes := [120, 248, 61, 83, 31, 142, 107, 144]
  const WithdrawDisc: Bytes := [22, 9, 133, 26, 160, 44, 71, 192]

  const TradeSchema: Schema := Schema(Trade, [TradeDisc], false,
      [Pubkey, U64, U64, Bool, Pubkey, I64, U64, U64, U64, U64, Pubkey, U64, U64, Pubkey, U64, U64,
       Bool, U64, U64, U64, I64, Str, Bool, U64, U64])

  const CreateSchema: Schema := Schema(Create, [CreateDisc, CreateV2Disc], false,
      [Str, Str, Str, Pubkey, Pubkey, Pubkey, Pubkey, I64, U64, U64, U64, U64, Pubkey, Bool, Bool])

  const MigrateSchema: Schema := Schema(Migrate, [MigrateDisc], false,
      [Pubkey, Pubkey, U64, U64, U64, Pubkey, I64, Pubkey])

  const BuySchema: Schema := Schema(Buy, [BuyDisc], true,
      [I64, U64, U64, U64, U64, U64, U64, U64, U64, U64, U64, U64, U64, U64,
       Pubkey, Pubkey, Pubkey, Pubkey, Pubkey, Pubkey, Pubkey, U64, U64,
       Bool, U64, U64, U64, I64, U64, Str, U64, U64])

  const SellSchema: Schema := Schema(Sell, [SellDisc], true,
      [I64, U64, U64, U64, U64, U64, U64, U64, U64, U64, U64, U64, U64, U64,
       Pubkey, Pubkey, Pubkey, Pubkey, Pubkey, Pubkey, Pubkey, U64, U64, U64, U64])

  const CreatePoolSchema: Schema := Schema(CreatePool, [CreatePoolDisc], true,
      [I64, U16, Pubkey, Pubkey, Pubkey, U8, U8, U64, U64, U64, U64, U64, U64, U64, U8,
       Pubkey, Pubkey, Pubkey, Pubkey, Pubkey, Bool])

  const DepositSchema: Schema := Schema(Deposit, [DepositDisc], true,
      [I64, U64, U64, U64, U64, U64, U64, U64, U64, U64, U64, Pubkey, Pubkey, Pubkey, Pubkey, Pubkey])

  const WithdrawSchema: Schema := Schema(Withdraw, [WithdrawDisc], true,
      [I64, U64, U64, U64, U64, U64, U64, U64, U64, U64, U64, Pubkey, Pubkey, Pubkey, Pubkey, Pubkey])

  const Schemas: seq<Schema> :=
    [TradeSchema, CreateSchema, MigrateSchema, BuySchema, SellSchema, CreatePoolSchema, DepositSchema, WithdrawSchema]

  // ----- Numbers -----

  function FromLe(bytes: Bytes): (n: nat) {
    if bytes == [] then 0 else bytes[0] + 256 * FromLe(bytes[1..])
  }

  function ToLe(n: nat, len: nat): (bytes: Bytes)
    ensures |bytes| == len
  {
    if len == 0 then [] else [n % 256] + ToLe(n / 256, len - 1)
  }

  function Pow256(len: nat): nat { if len == 0 then 1 else 256 * Pow256(len - 1) }

  lemma {:induction false} Pow256Values()
    ensures Pow256(1) == 256 && Pow256(2) == 0x1_0000 && Pow256(4) == Pow32 && Pow256(8) == Pow64
  {
  }

  lemma {:induction false} LeRoundTrip(n: nat, len: nat)
    requires n < Pow256(len)
    ensures FromLe(ToLe(n, len)) == n
  {
    if len == 0 {
    } else {
      LeRoundTrip(n / 256, len - 1);
      assert ToLe(n, len)[1..] == ToLe(n / 256, len - 1);
    }
  }

  lemma {:induction false} LeBytes(bytes: Bytes)
    ensures FromLe(bytes) < Pow256(|bytes|) && ToLe(FromLe(bytes), |bytes|) == bytes
  {
    if bytes == [] {
    } else {
      var rest := FromLe(bytes[1..]);
      LeBytes(bytes[1..]);
      assert (bytes[0] + 256 * rest) % 256 == bytes[0] && (bytes[0] + 256 * rest) / 256 == rest;
    }
  }

  /** Two's complement. */
  function Signed(n: nat): int { if n >= Pow63 then n - Pow64 else n }

  function Unsigned(n: int): int { if n < 0 then n + Pow64 else n }

  // ----- UTF-8 -----

  predicate Continues(b: Byte) { 0x80 <= b <= 0xBF }

  /** The length a sequence has by its first byte, or zero when no sequence starts so. */
  function Utf8Length(first: Byte): nat {
    if first <= 0x7F then 1
    else if 0xC2 <= first <= 0xDF then 2
    else if 0xE0 <= first <= 0xEF then 3
    else if 0xF0 <= first <= 0xF4 then 4
    else 0
  }

  /** The narrower range some first bytes leave for the second. */
  predicate SecondFits(first: Byte, second: Byte) {
    && Continues(second)
    && (first == 0xE0 ==> second >= 0xA0)
    && (first == 0xED ==> second <= 0x9F)
    && (first == 0xF0 ==> second >= 0x90)
    && (first == 0xF4 ==> second <= 0x8F)
  }

  predicate Utf8At(b: Bytes, i: nat)
    requires i < |b|
  {
    var n := Utf8Length(b[i]);
    && 0 < n && i + n <= |b|
    && (n > 1 ==> SecondFits(b[i], b[i + 1]))
    && (n > 2 ==> Continues(b[i + 2]))
    && (n > 3 ==> Continues(b[i + 3]))
  }

  predicate Utf8From(b: Bytes, i: nat)
    requires i <= |b|
    decreases |b| - i
  {
    i == |b| || (Utf8At(b, i) && Utf8From(b, i + Utf8Length(b[i])))
  }

  predicate IsUtf8(b: Bytes) { Utf8From(b, 0) }

  // ----- One field -----

  function Slice(data: Bytes, from: nat, len: nat): Option<Bytes> {
    if from + len <= |data| then Some(data[from..from + len]) else None
  }

  function ReadNumber(data: Bytes, from: nat, len: nat): Option<Read<nat>> {
    match Slice(data, from, len)
    case None => None
    case Some(bytes) => Some(Read(FromLe(bytes), from + len))
  }

  function ReadField(f: Field, data: Bytes, from: nat): Option<Read<Value>> {
    match f
    case U8 => (match ReadNumber(data, from, 1) case None => None case Some(r) => Some(Read(Num(r.value), r.next)))
    case U16 => (match ReadNumber(data, from, 2) case None => None case Some(r) => Some(Read(Num(r.value), r.next)))
    case U64 => (match ReadNumber(data, from, 8) case None => None case Some(r) => Some(Read(Num(r.value), r.next)))
    case I64 =>
      (match ReadNumber(data, from, 8) case None => None case Some(r) => Some(Read(Num(Signed(r.value)), r.next)))
    case Bool =>
      (match ReadNumber(data, from, 1) case None => None case Some(r) => Some(Read(Flag(r.value != 0), r.next)))
    case Pubkey => (match Slice(data, from, 32) case None => None case Some(bytes) => Some(Read(Key(bytes), from + 32)))
    case Str =>
      match ReadNumber(data, from, 4)
      case None => None
      case Some(len) =>
        match Slice(data, len.next, len.value)
        case None => None
        case Some(bytes) => if IsUtf8(bytes) then Some(Read(Text(bytes), len.next + len.value)) else None
  }

  predicate Fits(f: Field, v: Value) {
    match f
    case U8 => v.Num? && 0 <= v.n < 256
    case U16 => v.Num? && 0 <= v.n < 0x1_0000
    case U64 => v.Num? && 0 <= v.n < Pow64
    case I64 => v.Num? && -Pow63 <= v.n < Pow63
    case Bool => v.Flag?
    case Pubkey => v.Key? && |v.key| == 32
    case Str => v.Text? && |v.text| < Pow32 && IsUtf8(v.text)
  }

  /** The bytes of a value that fits its field. */
  function WriteField(f: Field, v: Value): Bytes {
    if !Fits(f, v) then []
    else
      match f
      case U8 => ToLe(v.n, 1)
      case U16 => ToLe(v.n, 2)
      case U64 => ToLe(v.n, 8)
      case I64 => ToLe(Unsigned(v.n), 8)
      case Bool => [if v.b then 1 else 0]
      case Pubkey => v.key
      case Str => ToLe(|v.text|, 4) + v.text
  }

  /** The bytes of a flag are zero or one; the decoder takes any other byte for one. */
  predicate Plain(f: Field, data: Bytes, from: nat) {
    f.Bool? && from < |data| ==> data[from] <= 1
  }

  // ----- Events -----

  /** The fields of a body; a strict decoder refuses a body with something after them. */
  function ParseBody(schema: Schema, body: Bytes): Option<Event> {
    match ReadAll(ReadField, schema.layout, body, 0)
    case None => None
    case Some(r) => if schema.strict && r.next != |body| then None else Some(Event(schema.kind, r.value))
  }

  function ParseEvent(schema: Schema, data: Bytes): Option<Event> {
    if |data| < 8 || data[..8] !in schema.discs then None else ParseBody(schema, data[8..])
  }

  function SchemaOf(schemas: seq<Schema>, disc: Bytes): Option<Schema> {
    if schemas == [] then None
    else if disc in schemas[0].discs then Some(schemas[0])
    else SchemaOf(schemas[1..], disc)
  }

  /** What the parser collects from a run of bytes: the first eight name the kind. */
  function CollectEvent(data: Bytes): Option<Event> {
    if |data| < 8 then None
    else
      match SchemaOf(Schemas, data[..8])
      case None => None
      case Some(schema) => ParseEvent(schema, data)
  }

  function EncodeEvent(schema: Schema, disc: Bytes, fields: seq<Value>): Bytes
    requires |schema.layout| == |fields|
  {
    disc + WriteAll(WriteField, schema.layout, fields)
  }

  // ----- The reader -----

  class ByteReader {
    const data: Bytes
    var offset: nat

    constructor (data: Bytes)
      ensures this.data == data && offset == 0
    {
      this.data := data;
      offset := 0;
    }

    method IsFinished() returns (r: bool)
      ensures r <==> offset == |data|
    {
      r := offset == |data|;
    }

    method ReadBytes(len: nat) returns (bytes: Option<Bytes>)
      modifies this
      ensures bytes == Slice(data, old(offset), len)
      ensures offset == if bytes.Some? then old(offset) + len else old(offset)
    {
      if offset + len > |data| {
        return None;
      }
      bytes := Some(data[offset..offset + len]);
      offset := offset + len;
    }

    method ReadLe(len: nat) returns (n: Option<nat>)
      modifies this
      ensures match ReadNumber(data, old(offset), len)
              case None => n == None
              case Some(r) => n == Some(r.value) && offset == r.next
    {
      var bytes := ReadBytes(len);
      n := if bytes.None? then None else Some(FromLe(bytes.value));
    }

    method ReadString() returns (v: Option<Value>)
      modifies this
      ensures match ReadField(Str, data, old(offset))
              case None => v == None
              case Some(r) => v == Some(r.value) && offset == r.next
    {
      var len := ReadLe(4);
      if len.None? {
        return None;
      }
      var bytes := ReadBytes(len.value);
      v := if bytes.None? || !IsUtf8(bytes.value) then None else Some(Text(bytes.value));
    }

    method Next(f: Field) returns (v: Option<Value>)
      modifies this
      ensures match ReadField(f, data, old(offset))
              case None => v == None
              case Some(r) => v == Some(r.value) && offset == r.next
    {
      match f {
        case U8 => var n := ReadLe(1); v := if n.None? then None else Some(Num(n.value));
        case U16 => var n := ReadLe(2); v := if n.None? then None else Some(Num(n.value));
        case U64 => var n := ReadLe(8); v := if n.None? then None else Some(Num(n.value));
        case I64 => var n := ReadLe(8); v := if n.None? then None else Some(Num(Signed(n.value)));
        case Bool => var n := ReadLe(1); v := if n.None? then None else Some(Flag(n.value != 0));
        case Pubkey => var bytes := ReadBytes(32); v := if bytes.None? then None else Some(Key(bytes.value));
        case Str => v := ReadString();
      }
    }
  }

  /** The decoder of one kind: fields are read in order, and the first that is not there ends it. */
  method ParseEventBytes(schema: Schema, data: Bytes) returns (event: Option<Event>)
    ensures event == ParseEvent(schema, data)
  {
    if |data| < 8 || data[..8] !in schema.discs {
      return None;
    }
    var body, layout := data[8..], schema.layout;
    var reader := new ByteReader(body);
    var fields := [];
    var i := 0;
    while i < |layout|
      invariant i <= |layout|
      invariant ReadAll(ReadField, layout[..i], body, 0) == Some(Read(fields, reader.offset))
    {
      ReadAllSplit(ReadField, layout, body, 0, i);
      var v := reader.Next(layout[i]);
      if v.None? {
        ReadAllFails(ReadField, layout, body, 0, i + 1);
        return None;
      }
      fields := fields + [v.value];
      i := i + 1;
    }
    assert layout[..i] == layout;
    var finished := reader.IsFinished();
    if schema.strict && !finished {
      return None;
    }
    event := Some(Event(schema.kind, fields));
  }

  // ----- Fields are read back as they were written -----

  /** What is read from a stretch of bytes depends on that stretch alone. */
  lemma {:induction false} SliceWithin(pre: Bytes, mid: Bytes, post: Bytes, from: nat, len: nat)
    requires from + len <= |mid|
    ensures Slice(pre + mid + post, |pre| + from, len) == Some(mid[from..from + len])
  {
    assert (pre + mid + post)[|pre| + from..|pre| + from + len] == mid[from..from + len];
  }

  lemma {:induction false} NumberRoundTrip(pre: Bytes, n: nat, len: nat, rest: Bytes)
    requires n < Pow256(len)
    ensures ReadNumber(pre + ToLe(n, len) + rest, |pre|, len) == Some(Read(n, |pre| + len))
  {
    SliceWithin(pre, ToLe(n, len), rest, 0, len);
    LeRoundTrip(n, len);
  }

  lemma {:induction false} NumericRoundTrip(f: Field, v: Value, pre: Bytes, rest: Bytes)
    requires Fits(f, v) && (f.U8? || f.U16? || f.U64? || f.I64?)
    ensures ReadField(f, pre + WriteField(f, v) + rest, |pre|) == Some(Read(v, |pre + WriteField(f, v)|))
  {
    Pow256Values();
    match f
    case U8 => NumberRoundTrip(pre, v.n, 1, rest);
    case U16 => NumberRoundTrip(pre, v.n, 2, rest);
    case U64 => NumberRoundTrip(pre, v.n, 8, rest);
    case I64 => NumberRoundTrip(pre, Unsigned(v.n), 8, rest);
  }

  lemma {:induction false} FlagRoundTrip(b: bool, pre: Bytes, rest: Bytes)
    ensures ReadField(Bool, pre + WriteField(Bool, Flag(b)) + rest, |pre|) == Some(Read(Flag(b), |pre| + 1))
  {
    var byte: Bytes := WriteField(Bool, Flag(b));
    SliceWithin(pre, byte, rest, 0, 1);
    assert byte[0..1] == byte && FromLe(byte) == byte[0];
  }

  lemma {:induction false} LengthRoundTrip(pre: Bytes, text: Bytes, rest: Bytes)
    requires |text| < Pow32
    ensures ReadNumber(pre + (ToLe(|text|, 4) + text) + rest, |pre|, 4) == Some(Read(|text|, |pre| + 4))
  {
    Pow256Values();
    Regroup(pre, ToLe(|text|, 4), text, rest);
    NumberRoundTrip(pre, |text|, 4, text + rest);
  }

  lemma {:induction false} TextRoundTrip(pre: Bytes, len: Bytes, text: Bytes, rest: Bytes)
    requires |len| == 4
    ensures Slice(pre + (len + text) + rest, |pre| + 4, |text|) == Some(text)
  {
    SliceWithin(pre, len + text, rest, 4, |text|);
    assert (len + text)[4..4 + |text|] == text;
  }

  lemma {:induction false} StringParts(pre: Bytes, text: Bytes, rest: Bytes, whole: Bytes)
    requires |text| < Pow32 && whole == pre + (ToLe(|text|, 4) + text) + rest
    ensures ReadNumber(whole, |pre|, 4) == Some(Read(|text|, |pre| + 4))
    ensures Slice(whole, |pre| + 4, |text|) == Some(text)
  {
    LengthRoundTrip(pre, text, rest);
    TextRoundTrip(pre, ToLe(|text|, 4), text, rest);
  }

  lemma {:induction false} StringAt(data: Bytes, from: nat, text: Bytes)
    requires ReadNumber(data, from, 4) == Some(Read(|text|, from + 4))
    requires Slice(data, from + 4, |text|) == Some(text) && IsUtf8(text)
    ensures ReadField(Str, data, from) == Some(Read(Text(text), from + 4 + |text|))
  {
  }

  lemma {:induction false} FieldRoundTrip(f: Field, v: Value, pre: Bytes, rest: Bytes)
    requires Fits(f, v)
    ensures ReadField(f, pre + WriteField(f, v) + rest, |pre|) == Some(Read(v, |pre + WriteField(f, v)|))
  {
    match f
    case U8 => NumericRoundTrip(f, v, pre, rest);
    case U16 => NumericRoundTrip(f, v, pre, rest);
    case U64 => NumericRoundTrip(f, v, pre, rest);
    case I64 => NumericRoundTrip(f, v, pre, rest);
    case Bool => FlagRoundTrip(v.b, pre, rest);
    case Pubkey => SliceWithin(pre, v.key, rest, 0, 32);
    case Str =>
      var whole := pre + WriteField(f, v) + rest;
      StringParts(pre, v.text, rest, whole);
      StringAt(whole, |pre|, v.text);
  }

  lemma {:induction false} FieldsInvert()
    ensures Inverts(ReadField, WriteField, Fits)
  {
    forall f, v, pre, rest | Fits(f, v)
      ensures ReadField(f, pre + WriteField(f, v) + rest, |pre|) == Some(Read(v, |pre + WriteField(f, v)|))
    {
      FieldRoundTrip(f, v, pre, rest);
    }
  }

  // ----- Reading depends on the bytes read alone -----

  lemma {:induction false} SliceStable(data: Bytes, more: Bytes, from: nat, len: nat)
    requires from + len <= |data|
    ensures Slice(data + more, from, len) == Slice(data, from, len)
  {
    assert (data + more)[from..from + len] == data[from..from + len];
  }

  lemma {:induction false} FieldStable(f: Field, data: Bytes, more: Bytes, from: nat)
    requires ReadField(f, data, from).Some?
    ensures from <= ReadField(f, data, from).value.next <= |data|
    ensures ReadField(f, data + more, from) == ReadField(f, data, from)
  {
    match f
    case U8 => SliceStable(data, more, from, 1);
    case U16 => SliceStable(data, more, from, 2);
    case U64 => SliceStable(data, more, from, 8);
    case I64 => SliceStable(data, more, from, 8);
    case Bool => SliceStable(data, more, from, 1);
    case Pubkey => SliceStable(data, more, from, 32);
    case Str =>
      SliceStable(data, more, from, 4);
      var len := ReadNumber(data, from, 4).value;
      SliceStable(data, more, len.next, len.value);
  }

  lemma {:induction false} SliceLocal(data: Bytes, from: nat, len: nat, n: nat)
    requires from + len <= n <= |data|
    ensures Slice(data[..n], from, len) == Slice(data, from, len)
  {
    assert data[..n][from..from + len] == data[from..from + len];
  }

  lemma {:induction false} FieldLocal(f: Field, data: Bytes, from: nat, n: nat)
    requires ReadField(f, data, from).Some? && ReadField(f, data, from).value.next <= n <= |data|
    ensures ReadField(f, data[..n], from) == ReadField(f, data, from)
  {
    match f
    case U8 => SliceLocal(data, from, 1, n);
    case U16 => SliceLocal(data, from, 2, n);
    case U64 => SliceLocal(data, from, 8, n);
    case I64 => SliceLocal(data, from, 8, n);
    case Bool => SliceLocal(data, from, 1, n);
    case Pubkey => SliceLocal(data, from, 32, n);
    case Str =>
      SliceLocal(data, from, 4, n);
      var len := ReadNumber(data, from, 4).value;
      SliceLocal(data, len.next, len.value, n);
  }

  lemma {:induction false} FieldsAreLocal()
    ensures Local(ReadField)
  {
    forall f, data, from: nat | ReadField(f, data, from).Some?
      ensures from <= ReadField(f, data, from).value.next <= |data|
    {
      FieldStable(f, data, [], from);
    }
    forall f, data, more, from: nat | ReadField(f, data, from).Some?
      ensures ReadField(f, data + more, from) == ReadField(f, data, from)
    {
      FieldStable(f, data, more, from);
    }
    forall f, data, from: nat, n: nat | ReadField(f, data, from).Some?
        && ReadField(f, data, from).value.next <= n <= |data|
      ensures ReadField(f, data[..n], from) == ReadField(f, data, from)
    {
      FieldLocal(f, data, from, n);
    }
  }

  // ----- Writing gives back what was read, but for flags -----

  lemma {:induction false} NumberRewrites(data: Bytes, from: nat, len: nat)
    requires from + len <= |data|
    ensures ReadNumber(data, from, len).Some?
    ensures
      var n := ReadNumber(data, from, len).value.value;
      n < Pow256(len) && ToLe(n, len) == data[from..from + len]
  {
    LeBytes(data[from..from + len]);
  }

  lemma {:induction false} StringRewrites(data: Bytes, from: nat)
    requires ReadField(Str, data, from).Some?
    ensures
      var r := ReadField(Str, data, from).value;
      r.value.Text? && Fits(Str, r.value) && from <= r.next <= |data| && WriteField(Str, r.value) == data[from..r.next]
  {
    Pow256Values();
    NumberRewrites(data, from, 4);
    var n := ReadNumber(data, from, 4).value.value;
    assert data[from..from + 4] + data[from + 4..from + 4 + n] == data[from..from + 4 + n];
  }

  lemma {:induction false} FieldRewrites(f: Field, data: Bytes, from: nat)
    requires ReadField(f, data, from).Some?
    ensures
      var r := ReadField(f, data, from).value;
      && Fits(f, r.value) && from <= r.next <= |data| && |WriteField(f, r.value)| == r.next - from
      && (WriteField(f, r.value) == data[from..r.next] <==> Plain(f, data, from))
  {
    Pow256Values();
    match f
    case U8 => NumberRewrites(data, from, 1);
    case U16 => NumberRewrites(data, from, 2);
    case U64 => NumberRewrites(data, from, 8);
    case I64 => NumberRewrites(data, from, 8);
    case Bool =>
      NumberRewrites(data, from, 1);
      assert data[from..from + 1] == [data[from]] && FromLe([data[from]]) == data[from];
    case Pubkey =>
    case Str => StringRewrites(data, from);
  }

  lemma {:induction false} FieldsRewrite()
    ensures Rewrites(ReadField, WriteField, Fits, Plain)
  {
    forall f, data, from: nat | ReadField(f, data, from).Some?
      ensures
        var r := ReadField(f, data, from).value;
        && Fits(f, r.value) && from <= r.next <= |data| && |WriteField(f, r.value)| == r.next - from
        && (WriteField(f, r.value) == data[from..r.next] <==> Plain(f, data, from))
    {
      FieldRewrites(f, data, from);
    }
  }

  // ----- Whole events, for every schema -----

  /** Decoding inverts the field-by-field encoding, for every value of every event. */
  lemma {:induction false} EventRoundTrip(schema: Schema, disc: Bytes, fields: seq<Value>)
    requires |disc| == 8 && disc in schema.discs && FitsAll(Fits, schema.layout, fields)
    ensures ParseEvent(schema, EncodeEvent(schema, disc, fields)) == Some(Event(schema.kind, fields))
  {
    var body := WriteAll(WriteField, schema.layout, fields);
    assert (disc + body)[..8] == disc && (disc + body)[8..] == body;
    FieldsInvert();
    AllRoundTrip(ReadField, WriteField, Fits, schema.layout, fields, [], []);
    assert [] + body + [] == body && [] + body == body;
  }

  /** On every extension of an accepted input, a strict decoder refuses and a lenient one returns the same
   * event. */
  lemma {:induction false} Extensions(schema: Schema, data: Bytes, more: Bytes)
    requires ParseEvent(schema, data).Some? && more != []
    ensures ParseEvent(schema, data + more) == if schema.strict then None else ParseEvent(schema, data)
  {
    assert (data + more)[..8] == data[..8] && (data + more)[8..] == data[8..] + more;
    FieldsAreLocal();
    AllStable(ReadField, schema.layout, data[8..], more, 0);
    AllInBounds(ReadField, schema.layout, data[8..], 0);
  }

  /** How many bytes an accepted input needs. */
  function Needed(schema: Schema, data: Bytes): nat
    requires ParseEvent(schema, data).Some?
  {
    8 + ReadAll(ReadField, schema.layout, data[8..], 0).value.next
  }

  /** An accepted input cut short of the bytes it needs is refused; cut anywhere after them it still gives the
   * same event; and a strict decoder needs all the bytes it was given. */
  lemma {:induction false} Truncations(schema: Schema, data: Bytes, n: nat)
    requires ParseEvent(schema, data).Some? && n < |data|
    ensures Needed(schema, data) <= |data| && (schema.strict ==> Needed(schema, data) == |data|)
    ensures ParseEvent(schema, data[..n]) == if n < Needed(schema, data) then None else ParseEvent(schema, data)
  {
    var layout, body := schema.layout, data[8..];
    FieldsAreLocal();
    AllInBounds(ReadField, layout, body, 0);
    if n >= 8 {
      var cut := body[..n - 8];
      assert data[..n][8..] == cut && data[..n][..8] == data[..8];
      assert body == cut + body[n - 8..];
      if ReadAll(ReadField, layout, cut, 0).Some? {
        AllInBounds(ReadField, layout, cut, 0);
        AllStable(ReadField, layout, cut, body[n - 8..], 0);
      }
      if Needed(schema, data) <= n {
        AllLocal(ReadField, layout, body, 0, n - 8);
      }
    }
  }

  /** An input a strict decoder accepts is the encoding of what was decoded from it exactly when its flags
   * are zero or one; so two such inputs never give the same event under the same name. */
  lemma {:induction false} RewritesIff(schema: Schema, data: Bytes)
    requires ParseEvent(schema, data).Some? && schema.strict
    ensures
      var fields := ParseEvent(schema, data).value.fields;
      && FitsAll(Fits, schema.layout, fields)
      && (EncodeEvent(schema, data[..8], fields) == data <==> PlainAll(ReadField, Plain, schema.layout, data[8..], 0))
  {
    var body, fields := data[8..], ParseEvent(schema, data).value.fields;
    FieldsRewrite();
    AllRewrite(ReadField, WriteField, Fits, Plain, schema.layout, body, 0);
    assert body[0..|body|] == body;
    SameSplit(data, 8, data[..8], WriteAll(WriteField, schema.layout, fields));
  }

  // ----- The program's events -----

  /** No bytes name two kinds. */
  ghost predicate Unambiguous(schemas: seq<Schema>) {
    forall i, j, disc | 0 <= i < j < |schemas| && disc in schemas[i].discs :: disc !in schemas[j].discs
  }

  lemma {:induction false} SchemaFound(schemas: seq<Schema>, i: nat, disc: Bytes)
    requires Unambiguous(schemas) && i < |schemas| && disc in schemas[i].discs
    ensures SchemaOf(schemas, disc) == Some(schemas[i])
  {
    if i == 0 {
    } else {
      assert forall j | 0 <= j < |schemas| - 1 :: schemas[1..][j] == schemas[j + 1];
      SchemaFound(schemas[1..], i - 1, disc);
    }
  }

  lemma {:induction false} DiscriminatorsDiffer()
    ensures Unambiguous(Schemas)
    ensures forall i, disc | 0 <= i < |Schemas| && disc in Schemas[i].discs :: |disc| == 8
  {
  }

  /** Whatever event of whatever kind is encoded, under either name where it has two, the parser collects
   * exactly that event. */
  lemma {:induction false} CollectsWhatWasEncoded(i: nat, disc: Bytes, fields: seq<Value>)
    requires i < |Schemas| && disc in Schemas[i].discs && FitsAll(Fits, Schemas[i].layout, fields)
    ensures CollectEvent(EncodeEvent(Schemas[i], disc, fields)) == Some(Event(Schemas[i].kind, fields))
  {
    var schema := Schemas[i];
    DiscriminatorsDiffer();
    SchemaFound(Schemas, i, disc);
    EventRoundTrip(schema, disc, fields);
    assert (disc + WriteAll(WriteField, schema.layout, fields))[..8] == disc;
  }
}
