/** How single values look as bytes, byte by byte. */
module Wire {
  import opened Options
  import opened FieldCodec
  import opened EventBytes

  function At(b: Bytes, i: nat): int
    requires i < |b|
  {
    b[i]
  }

  /** The least significant byte comes first. */
  function TwoBytes(b: Bytes): int
    requires |b| >= 2
  {
    At(b, 0) + 0x100 * At(b, 1)
  }

  function FourBytes(b: Bytes): int
    requires |b| >= 4
  {
    TwoBytes(b) + 0x1_0000 * (At(b, 2) + 0x100 * At(b, 3))
  }

  function EightBytes(b: Bytes): int
    requires |b| >= 8
  {
    FourBytes(b) + 0x1_0000_0000 * FourBytes(b[4..])
  }

  /** The bytes stand for the value: numbers are little-endian, signed ones in two's complement; a flag is set
   * by any byte but zero; a key is its 32 bytes; and a text is UTF-8 after its length in four bytes. */
  predicate StandsFor(f: Field, v: Value, b: Bytes) {
    match f
    case U8 => |b| == 1 && v == Num(At(b, 0))
    case U16 => |b| == 2 && v == Num(TwoBytes(b))
    case U64 => |b| == 8 && v == Num(EightBytes(b))
    case I64 =>
      && |b| == 8 && v.Num? && -0x8000_0000_0000_0000 <= v.n < 0x8000_0000_0000_0000
      && (v.n == EightBytes(b) || v.n == EightBytes(b) - 0x1_0000_0000_0000_0000)
    case Bool => |b| == 1 && v == Flag(At(b, 0) != 0)
    case Pubkey => |b| == 32 && v == Key(b)
    case Str => |b| >= 4 && |b| - 4 == FourBytes(b) && v == Text(b[4..]) && IsUtf8(b[4..])
  }

  lemma {:induction false} LeTwo(b: Bytes)
    requires |b| >= 2
    ensures FromLe(b[..1]) == At(b, 0) && FromLe(b[..2]) == TwoBytes(b)
  {
    assert b[..1][1..] == [] && b[..2][1..] == [b[1]] && [b[1]][1..] == [];
    assert FromLe([b[1]]) == b[1] + 256 * FromLe([]);
  }

  lemma {:induction false} LeStep(b: Bytes)
    requires b != []
    ensures FromLe(b) == At(b, 0) + 256 * FromLe(b[1..])
  {
  }

  lemma {:induction false} LeFour(b: Bytes)
    requires |b| == 4
    ensures FromLe(b) == FourBytes(b)
  {
    LeStep(b);
    LeStep(b[1..]);
    assert b[1..][1..] == b[2..] && b[2..][..2] == b[2..];
    LeTwo(b[2..]);
  }

  lemma {:induction false} LeEight(b: Bytes)
    requires |b| == 8
    ensures FromLe(b) == EightBytes(b)
  {
    LeStep(b);
    LeStep(b[1..]);
    LeStep(b[2..]);
    LeStep(b[3..]);
    assert b[1..][1..] == b[2..] && b[2..][1..] == b[3..] && b[3..][1..] == b[4..];
    LeFour(b[4..]);
    Weights(At(b, 0), At(b, 1), At(b, 2), At(b, 3), FromLe(b[4..]));
  }

  lemma {:induction false} Weights(w: int, x: int, y: int, z: int, rest: int)
    ensures w + 256 * (x + 256 * (y + 256 * (z + 256 * rest)))
         == w + 0x100 * x + 0x1_0000 * (y + 0x100 * z) + 0x1_0000_0000 * rest
  {
  }

  lemma {:induction false} SignedIs(u: nat, n: int)
    requires u < Pow64
    ensures n == Signed(u) <==>
            -0x8000_0000_0000_0000 <= n < 0x8000_0000_0000_0000 && (n == u || n == u - 0x1_0000_0000_0000_0000)
  {
  }

  lemma {:induction false} SmallReads(f: Field, data: Bytes, from: nat, v: Value, next: nat)
    requires f.U8? || f.U16? || f.Bool? || f.Pubkey?
    ensures ReadField(f, data, from) == Some(Read(v, next)) <==>
            from <= next <= |data| && StandsFor(f, v, data[from..next])
  {
    if from + 1 <= |data| && (f.U8? || f.Bool?) {
      var b := data[from..from + 1];
      LeStep(b);
      assert b[1..] == [];
    }
    if from + 2 <= |data| && f.U16? {
      var b := data[from..from + 2];
      LeTwo(b);
      assert b[..2] == b;
    }
  }

  lemma {:induction false} WideReads(f: Field, data: Bytes, from: nat, v: Value, next: nat)
    requires f.U64? || f.I64?
    ensures ReadField(f, data, from) == Some(Read(v, next)) <==>
            from <= next <= |data| && StandsFor(f, v, data[from..next])
  {
    if from + 8 <= |data| {
      var b := data[from..from + 8];
      LeEight(b);
      LeBytes(b);
      Pow256Values();
      if v.Num? { SignedIs(FromLe(b), v.n); }
    }
  }

  lemma {:induction false} TextReads(data: Bytes, from: nat, v: Value, next: nat)
    ensures ReadField(Str, data, from) == Some(Read(v, next)) <==>
            from <= next <= |data| && StandsFor(Str, v, data[from..next])
  {
    if from + 4 <= |data| {
      var head := data[from..from + 4];
      LeFour(head);
      if from + 4 <= next <= |data| {
        var b := data[from..next];
        assert b[..4] == head && FourBytes(b) == FourBytes(head);
        assert b[4..] == data[from + 4..next];
      }
    }
  }

  /** A field is read from a place, up to another, exactly when the bytes between them stand for its value. */
  lemma {:induction false} ReadsExactly(f: Field, data: Bytes, from: nat, v: Value, next: nat)
    ensures ReadField(f, data, from) == Some(Read(v, next)) <==>
            from <= next <= |data| && StandsFor(f, v, data[from..next])
  {
    if f.Str? { TextReads(data, from, v, next); }
    else if f.U64? || f.I64? { WideReads(f, data, from, v, next); }
    else { SmallReads(f, data, from, v, next); }
  }

  /** What is written for a value that fits stands for it. */
  lemma {:induction false} WritesWhatStands(f: Field, v: Value)
    requires Fits(f, v)
    ensures StandsFor(f, v, WriteField(f, v))
  {
    var b := WriteField(f, v);
    FieldRoundTrip(f, v, [], []);
    assert [] + b + [] == b && [] + b == b && b[0..|b|] == b;
    ReadsExactly(f, b, 0, v, |b|);
  }
}
