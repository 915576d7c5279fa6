/** The texts an event can hold: exactly the encodings of sequences of Unicode scalar values. */
module Utf8 {
  import opened FieldCodec
  import opened EventBytes

  /** A code point that is no surrogate. */
  predicate IsScalar(c: int) { 0 <= c < 0x11_0000 && !(0xD800 <= c < 0xE000) }

  /** The last six bits, as a continuation byte. */
  function Bits(c: nat): Byte { 0x80 + c % 64 }

  function Encoding(c: int): Bytes
    requires IsScalar(c)
  {
    if c < 0x80 then [c]
    else if c < 0x800 then [0xC0 + c / 0x40, Bits(c)]
    else if c < 0x1_0000 then [0xE0 + c / 0x1000, Bits(c / 0x40), Bits(c)]
    else [0xF0 + c / 0x4_0000, Bits(c / 0x1000), Bits(c / 0x40), Bits(c)]
  }

  predicate AreScalars(cs: seq<int>) { forall i | 0 <= i < |cs| :: IsScalar(cs[i]) }

  function EncodingOf(cs: seq<int>): Bytes
    requires AreScalars(cs)
  {
    if cs == [] then [] else Encoding(cs[0]) + EncodingOf(cs[1..])
  }

  /** The code point a well-formed sequence stands for. */
  function Decoded(b: Bytes): int
    requires 1 <= |b| <= 4
  {
    var first: int := b[0];
    if |b| == 1 then first
    else if |b| == 2 then 0x40 * (first - 0xC0) + (b[1] as int - 0x80)
    else if |b| == 3 then 0x1000 * (first - 0xE0) + 0x40 * (b[1] as int - 0x80) + (b[2] as int - 0x80)
    else 0x4_0000 * (first - 0xF0) + 0x1000 * (b[1] as int - 0x80) + 0x40 * (b[2] as int - 0x80) + (b[3] as int - 0x80)
  }

  /** A sequence is well formed. */
  predicate IsSequence(b: Bytes) { 1 <= |b| <= 4 && Utf8At(b, 0) && Utf8Length(b[0]) == |b| }

  lemma {:induction false} EncodingIsSequence(c: int)
    requires IsScalar(c)
    ensures IsSequence(Encoding(c))
  {
  }

  lemma {:induction false} TwoBytes(b: Bytes)
    requires IsSequence(b) && |b| == 2
    ensures IsScalar(Decoded(b)) && Encoding(Decoded(b)) == b
  {
    var c := Decoded(b);
    assert c / 0x40 == b[0] as int - 0xC0 && c % 0x40 == b[1] as int - 0x80;
  }

  lemma {:induction false} ThreeBytes(b: Bytes)
    requires IsSequence(b) && |b| == 3
    ensures IsScalar(Decoded(b)) && Encoding(Decoded(b)) == b
  {
    var c := Decoded(b);
    var x, y, z := b[0] as int - 0xE0, b[1] as int - 0x80, b[2] as int - 0x80;
    assert c == 0x1000 * x + 0x40 * y + z;
    assert c / 0x40 == 0x40 * x + y && c % 0x40 == z;
    assert c / 0x1000 == x && (c / 0x40) % 0x40 == y;
  }

  lemma {:induction false} FourBytes(b: Bytes)
    requires IsSequence(b) && |b| == 4
    ensures IsScalar(Decoded(b)) && Encoding(Decoded(b)) == b
  {
    var c := Decoded(b);
    var w, x, y, z := b[0] as int - 0xF0, b[1] as int - 0x80, b[2] as int - 0x80, b[3] as int - 0x80;
    assert c == 0x4_0000 * w + 0x1000 * x + 0x40 * y + z;
    assert c / 0x40 == 0x1000 * w + 0x40 * x + y && c % 0x40 == z;
    assert c / 0x1000 == 0x40 * w + x && (c / 0x40) % 0x40 == y;
    assert c / 0x4_0000 == w && (c / 0x1000) % 0x40 == x;
  }

  /** Well-formed sequences and scalar values are in one-to-one correspondence. */
  lemma {:induction false} SequenceIsEncoding(b: Bytes)
    requires IsSequence(b)
    ensures IsScalar(Decoded(b)) && Encoding(Decoded(b)) == b
  {
    if |b| == 2 { TwoBytes(b); }
    else if |b| == 3 { ThreeBytes(b); }
    else if |b| == 4 { FourBytes(b); }
  }

  // ----- Whole texts -----

  /** A well-formed sequence is so wherever it stands. */
  lemma {:induction false} SequenceAt(b: Bytes, i: nat, n: nat)
    requires i + n <= |b| && 1 <= n
    ensures IsSequence(b[i..i + n]) <==> Utf8At(b, i) && Utf8Length(b[i]) == n
  {
    var s := b[i..i + n];
    assert forall k | 0 <= k < n :: s[k] == b[i + k];
  }

  lemma {:induction false} TextIsEncoding(b: Bytes, i: nat) returns (cs: seq<int>)
    requires i <= |b| && Utf8From(b, i)
    ensures AreScalars(cs) && EncodingOf(cs) == b[i..]
    decreases |b| - i
  {
    if i == |b| {
      cs := [];
    } else {
      var n := Utf8Length(b[i]);
      SequenceAt(b, i, n);
      SequenceIsEncoding(b[i..i + n]);
      var rest := TextIsEncoding(b, i + n);
      cs := [Decoded(b[i..i + n])] + rest;
      assert cs[1..] == rest;
      assert b[i..] == b[i..i + n] + b[i + n..];
    }
  }

  lemma {:induction false} EncodingIsText(b: Bytes, i: nat, cs: seq<int>)
    requires i <= |b| && AreScalars(cs) && EncodingOf(cs) == b[i..]
    ensures Utf8From(b, i)
    decreases |cs|
  {
    if cs == [] {
    } else {
      var s := Encoding(cs[0]);
      var n := |s|;
      EncodingIsSequence(cs[0]);
      assert b[i..][..n] == s && b[i..i + n] == b[i..][..n];
      SequenceAt(b, i, n);
      assert b[i..][n..] == b[i + n..] && EncodingOf(cs[1..]) == b[i + n..];
      EncodingIsText(b, i + n, cs[1..]);
    }
  }

  /** A text is accepted if and only if it encodes a sequence of scalar values. */
  lemma {:induction false} TextsAreEncodings(b: Bytes)
    ensures IsUtf8(b) <==> exists cs :: AreScalars(cs) && EncodingOf(cs) == b
  {
    assert b[0..] == b;
    if IsUtf8(b) {
      var cs := TextIsEncoding(b, 0);
    }
    if cs :| AreScalars(cs) && EncodingOf(cs) == b {
      EncodingIsText(b, 0, cs);
    }
  }
}
