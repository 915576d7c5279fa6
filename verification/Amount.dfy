/** Raw integer amounts as decimal text with a fixed number of decimals. */
module Amount {
  import opened Options
  import opened Decimals

  /** A whole number in base ten: an optional sign, then at least one digit and nothing else. */
  function ParseInt(raw: string): Option<int> {
    if raw == "" then None
    else if raw[0] == '-' then
      if |raw| > 1 && AllDigits(raw[1..]) then Some(0 - Value(raw[1..])) else None
    else if raw[0] == '+' then
      if |raw| > 1 && AllDigits(raw[1..]) then Some(Value(raw[1..])) else None
    else if AllDigits(raw) then Some(Value(raw)) else None
  }

  function Abs(v: int): nat { if v < 0 then -v else v }

  function Zeros(n: nat): (s: string)
    ensures |s| == n && forall i | 0 <= i < n :: s[i] == '0'
  {
    seq(n, i => '0')
  }

  /** The text without its trailing c's. */
  function TrimRight(s: string, c: char): (r: string)
    ensures r <= s
    ensures r != "" ==> r[|r| - 1] != c
    ensures forall i | |r| <= i < |s| :: s[i] == c
  {
    if s == "" || s[|s| - 1] != c then s else TrimRight(s[..|s| - 1], c)
  }

  /** The digits, padded so that at least one stands before the point. */
  function Padded(digits: string, scale: nat): string {
    if |digits| <= scale then Zeros(scale - |digits| + 1) + digits else digits
  }

  function DigitsOf(value: int, scale: nat): string { Padded(Decimal(Abs(value)), scale) }

  function FormatInt(value: int, scale: nat): string
    requires scale > 0
  {
    var digits := DigitsOf(value, scale);
    if scale < |digits| then WithSign(value < 0, Trimmed(digits, |digits| - scale)) else ""
  }

  /** The digits with the point put in and everything superfluous after it taken off. */
  function Trimmed(digits: string, point: nat): string
    requires point <= |digits|
  {
    TrimParts(digits[..point], digits[point..])
  }

  function TrimParts(whole: string, tail: string): string {
    TrimRight(TrimRight(whole + "." + tail, '0'), '.')
  }

  function WithSign(negative: bool, trimmed: string): string {
    var formatted := if trimmed == "" then "0" else trimmed;
    if negative && formatted != "0" then "-" + formatted else formatted
  }

  function FormatAmount(raw: string, decimals: Option<int>): string {
    if raw == "" then ""
    else if decimals.None? || decimals.value <= 0 then raw
    else
      match ParseInt(raw)
      case None => raw
      case Some(value) => FormatInt(value, decimals.value)
  }

  /** A number is read exactly from one or more digits with at most one sign before them. */
  predicate Writes(raw: string, digits: string, value: int) {
    && digits != "" && AllDigits(digits)
    && if raw == "-" + digits then value == 0 - Value(digits)
       else (raw == digits || raw == "+" + digits) && value == Value(digits)
  }

  lemma {:induction false} ReadsExactly(raw: string, value: int)
    ensures ParseInt(raw) == Some(value) <==> exists digits :: Writes(raw, digits, value)
  {
    if ParseInt(raw) == Some(value) {
      if raw[0] == '-' || raw[0] == '+' {
        assert raw == [raw[0]] + raw[1..];
        assert raw[0] == '+' ==> raw != "-" + raw[1..];
        assert Writes(raw, raw[1..], value);
      } else {
        assert raw != "-" + raw;
        assert Writes(raw, raw, value);
      }
    }
    if digits :| Writes(raw, digits, value) {
      SignedReads(digits);
    }
  }

  lemma {:induction false} SignedReads(digits: string)
    requires digits != "" && AllDigits(digits)
    ensures ParseInt(digits) == Some(Value(digits)) && ParseInt("+" + digits) == Some(Value(digits))
    ensures ParseInt("-" + digits) == Some(0 - Value(digits))
    ensures digits != "-" + digits && "+" + digits != "-" + digits
  {
    assert ("+" + digits)[1..] == digits && ("-" + digits)[1..] == digits;
    assert |"-" + digits| == |digits| + 1;
    assert ("+" + digits)[0] != ("-" + digits)[0];
  }

  // ----- What the text is made of -----

  /** The digits before the point, and those after it without trailing zeros. */
  function Whole(digits: string, scale: nat): string
    requires scale <= |digits|
  {
    digits[..|digits| - scale]
  }

  function Fraction(digits: string, scale: nat): string
    requires scale <= |digits|
  {
    TrimRight(digits[|digits| - scale..], '0')
  }

  function Joined(whole: string, fraction: string): string {
    if fraction == "" then whole else whole + "." + fraction
  }

  /** Digits with at least one before the point, and no zero in front that is not needed. */
  predicate Canonical(digits: string, scale: nat) {
    AllDigits(digits) && scale < |digits| && (|digits| > scale + 1 ==> digits[0] != '0')
  }

  lemma {:induction false} DigitsAre(value: int, scale: nat)
    ensures Canonical(DigitsOf(value, scale), scale) && Value(DigitsOf(value, scale)) == Abs(value)
  {
    DecimalReads(Abs(value));
    PaddedIs(Decimal(Abs(value)), scale);
  }

  lemma {:induction false} PaddedIs(digits: string, scale: nat)
    requires AllDigits(digits) && digits != "" && (digits[0] == '0' ==> |digits| == 1)
    ensures Canonical(Padded(digits, scale), scale) && Value(Padded(digits, scale)) == Value(digits)
  {
    if |digits| <= scale {
      LeadingZeros(Zeros(scale - |digits| + 1), digits);
    }
  }

  lemma {:induction false} LeadingZeros(zeros: string, digits: string)
    requires forall i | 0 <= i < |zeros| :: zeros[i] == '0'
    ensures Value(zeros + digits) == Value(digits)
  {
    ValueConcat(zeros, digits);
    ValueZeros(zeros);
    assert Value(zeros) * Pow10(|digits|) == 0;
  }

  /** Trimming stops at the first other character. */
  lemma {:induction false} TrimStops(a: string, x: char, b: string, c: char)
    requires x != c
    ensures TrimRight(a + [x] + b, c) == a + [x] + TrimRight(b, c)
    decreases |b|
  {
    if b == "" {
      assert a + [x] + b == a + [x];
    } else if b[|b| - 1] == c {
      assert (a + [x] + b)[..|a + [x] + b| - 1] == a + [x] + b[..|b| - 1];
      TrimStops(a, x, b[..|b| - 1], c);
    }
  }

  lemma {:induction false} NothingToTrim(s: string, c: char)
    requires s != "" && s[|s| - 1] != c
    ensures TrimRight(s, c) == s
  {
  }

  lemma {:induction false} TrimmedIsJoined(whole: string, digits: string)
    requires whole != "" && AllDigits(whole) && AllDigits(digits)
    ensures TrimParts(whole, digits) == Joined(whole, TrimRight(digits, '0'))
  {
    var fraction := TrimRight(digits, '0');
    TrimStops(whole, '.', digits, '0');
    assert whole + "." + digits == whole + ['.'] + digits;
    if fraction == "" {
      assert whole + ['.'] + fraction == whole + ['.'];
      assert (whole + ['.'])[..|whole|] == whole;
      NothingToTrim(whole, '.');
    } else {
      assert IsDigit(digits[|fraction| - 1]) && fraction[|fraction| - 1] == digits[|fraction| - 1];
      NothingToTrim(whole + ['.'] + fraction, '.');
    }
  }

  lemma {:induction false} TrimmedDigits(digits: string, scale: nat)
    requires Canonical(digits, scale)
    ensures Trimmed(digits, |digits| - scale) == Joined(Whole(digits, scale), Fraction(digits, scale))
  {
    var point := |digits| - scale;
    SplitDigits(digits, point);
    TrimmedIsJoined(digits[..point], digits[point..]);
  }

  lemma {:induction false} SplitDigits(digits: string, point: nat)
    requires AllDigits(digits) && point <= |digits|
    ensures AllDigits(digits[..point]) && AllDigits(digits[point..])
  {
  }

  /** Trailing zeros scale the value. */
  lemma {:induction false} TrimScales(whole: string, digits: string)
    ensures
      var fraction := TrimRight(digits, '0');
      Value(whole + digits) == Value(whole + fraction) * Pow10(|digits| - |fraction|)
  {
    var fraction := TrimRight(digits, '0');
    var zeros := digits[|fraction|..];
    assert whole + digits == (whole + fraction) + zeros;
    ValueConcat(whole + fraction, zeros);
    ValueZeros(zeros);
  }

  /** The two parts denote the number over the power of ten, exactly. */
  lemma {:induction false} PartsValue(digits: string, scale: nat)
    requires Canonical(digits, scale)
    ensures
      var whole, fraction := Whole(digits, scale), Fraction(digits, scale);
      |fraction| <= scale && Value(whole + fraction) * Pow10(scale - |fraction|) == Value(digits)
  {
    var whole, tail := digits[..|digits| - scale], digits[|digits| - scale..];
    assert whole + tail == digits;
    TrimScales(whole, tail);
  }

  /** The parts are canonical: digits only, no trailing zero, no redundant leading zero. */
  lemma {:induction false} PartsAreCanonical(digits: string, scale: nat)
    requires Canonical(digits, scale)
    ensures
      var whole, fraction := Whole(digits, scale), Fraction(digits, scale);
      && AllDigits(whole) && AllDigits(fraction) && whole != ""
      && (fraction != "" ==> fraction[|fraction| - 1] != '0')
      && (|whole| > 1 ==> whole[0] != '0')
  {
  }

  lemma {:induction false} PositiveIsNotZero(digits: string, scale: nat)
    requires Canonical(digits, scale) && Value(digits) > 0
    ensures Joined(Whole(digits, scale), Fraction(digits, scale)) != "0"
  {
    var whole, fraction := Whole(digits, scale), Fraction(digits, scale);
    PartsValue(digits, scale);
    PartsAreCanonical(digits, scale);
    if fraction == "" {
      ValueZeros("0");
      assert whole + fraction == whole;
      assert Value("0") * Pow10(scale) == 0;
    } else {
      assert |Joined(whole, fraction)| > 1;
    }
  }

  /** The text is a minus for a negative amount, then the canonical whole part and fraction; so the fallback
   * for an empty text is never used, and a negative amount never loses its sign. */
  lemma {:induction false} TextIs(value: int, scale: nat)
    requires scale > 0
    ensures
      var digits := DigitsOf(value, scale);
      && Canonical(digits, scale)
      && var text := Joined(Whole(digits, scale), Fraction(digits, scale));
      && Trimmed(digits, |digits| - scale) == text != ""
      && FormatInt(value, scale) == if value < 0 then "-" + text else text
  {
    DigitsAre(value, scale);
    var digits := DigitsOf(value, scale);
    SignedText(digits, scale, value < 0);
    FormatIs(value, scale, digits, Trimmed(digits, |digits| - scale));
  }

  lemma {:induction false} FormatIs(value: int, scale: nat, digits: string, trimmed: string)
    requires scale > 0 && digits == DigitsOf(value, scale) && scale < |digits|
    requires trimmed == Trimmed(digits, |digits| - scale)
    ensures FormatInt(value, scale) == WithSign(value < 0, trimmed)
  {
  }

  lemma {:induction false} SignedText(digits: string, scale: nat, negative: bool)
    requires Canonical(digits, scale) && (negative ==> Value(digits) > 0)
    ensures
      var text := Joined(Whole(digits, scale), Fraction(digits, scale));
      && Trimmed(digits, |digits| - scale) == text != ""
      && WithSign(negative, Trimmed(digits, |digits| - scale)) == if negative then "-" + text else text
  {
    TrimmedDigits(digits, scale);
    PartsAreCanonical(digits, scale);
    if negative { PositiveIsNotZero(digits, scale); }
  }

  // ----- Reading the text back -----

  function PointAt(s: string): (i: nat)
    ensures i <= |s| && (i < |s| ==> s[i] == '.') && forall j | 0 <= j < i :: s[j] != '.'
  {
    if s == "" || s[0] == '.' then 0 else 1 + PointAt(s[1..])
  }

  /** The integer a decimal text denotes at a scale. */
  function Unscaled(text: string, scale: nat): int {
    if text != "" && text[0] == '-' then 0 - MagnitudeOf(text[1..], scale) else MagnitudeOf(text, scale)
  }

  function MagnitudeOf(text: string, scale: nat): nat {
    var i := PointAt(text);
    var fraction := if i < |text| then text[i + 1..] else "";
    Value(text[..i] + fraction) * if |fraction| <= scale then Pow10(scale - |fraction|) else 0
  }

  lemma {:induction false} JoinedReads(whole: string, fraction: string, scale: nat)
    requires AllDigits(whole) && AllDigits(fraction) && |fraction| <= scale
    ensures MagnitudeOf(Joined(whole, fraction), scale) == Value(whole + fraction) * Pow10(scale - |fraction|)
  {
    var text := Joined(whole, fraction);
    var i := PointAt(text);
    if fraction == "" {
      assert i == |text| && text[..i] == whole;
      assert whole + "" == whole;
    } else {
      assert text[|whole|] == '.';
      assert forall j | 0 <= j < |whole| :: text[j] == whole[j];
      assert i == |whole|;
      assert text[..i] == whole && text[i + 1..] == fraction;
    }
  }

  lemma {:induction false} MagnitudeReads(digits: string, scale: nat)
    requires Canonical(digits, scale)
    ensures MagnitudeOf(Joined(Whole(digits, scale), Fraction(digits, scale)), scale) == Value(digits)
  {
    PartsValue(digits, scale);
    PartsAreCanonical(digits, scale);
    JoinedReads(Whole(digits, scale), Fraction(digits, scale), scale);
  }

  /** Formatting is exact: the text reads back as the amount. */
  lemma {:induction false} FormatIsExact(value: int, scale: nat)
    requires scale > 0
    ensures Unscaled(FormatInt(value, scale), scale) == value
  {
    var digits := DigitsOf(value, scale);
    TextIs(value, scale);
    DigitsAre(value, scale);
    MagnitudeReads(digits, scale);
    PartsAreCanonical(digits, scale);
    var text := Joined(Whole(digits, scale), Fraction(digits, scale));
    assert text[0] == Whole(digits, scale)[0] && IsDigit(Whole(digits, scale)[0]);
    SignReads(text, scale);
  }

  lemma {:induction false} SignReads(text: string, scale: nat)
    requires text != "" && IsDigit(text[0])
    ensures Unscaled(text, scale) == MagnitudeOf(text, scale)
    ensures Unscaled("-" + text, scale) == 0 - MagnitudeOf(text, scale)
  {
  }

  /** Two amounts never share a text. */
  lemma {:induction false} FormatIsInjective(v: int, w: int, scale: nat)
    requires scale > 0 && FormatInt(v, scale) == FormatInt(w, scale)
    ensures v == w
  {
    FormatIsExact(v, scale);
    FormatIsExact(w, scale);
  }

  /** The text of a raw amount: its number at the scale when there is a scale and the raw text is a number,
   * and the raw text itself otherwise. */
  lemma {:induction false} FormatAmountIs(raw: string, decimals: Option<int>)
    ensures
      var text := FormatAmount(raw, decimals);
      if decimals.Some? && decimals.value > 0 && ParseInt(raw).Some?
      then text != "" && Unscaled(text, decimals.value) == ParseInt(raw).value
      else text == raw
  {
    if decimals.Some? && decimals.value > 0 && ParseInt(raw).Some? {
      var value, scale := ParseInt(raw).value, decimals.value;
      assert FormatAmount(raw, decimals) == FormatInt(value, scale);
      TextIs(value, scale);
      FormatIsExact(value, scale);
    }
  }
}
