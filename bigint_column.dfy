/**
 * The value transformer of the bigint primary-key column
 * (src/utils/decorator/primary-generate-bigint-column.decorator.ts): `to` turns an entity's
 * bigint id into the string the database driver receives, `from` turns what the driver
 * returns back into a bigint.
 */
module BigintColumn {
  import opened Wrappers

  /** The JavaScript values that reach the transformer. JS numbers are modelled as reals. */
  datatype JsValue =
    | BigIntValue(big: int)
    | StringValue(str: string)
    | NumberValue(num: real)
    | Undefined
    | Null

  /** The errors `BigInt(...)` throws: a string outside its grammar, a number that is not an integer. */
  datatype JsError = SyntaxError | RangeError

  predicate IsDigit(c: char)
  {
    '0' <= c <= '9'
  }

  predicate AllDigits(s: string)
  {
    forall i | 0 <= i < |s| :: IsDigit(s[i])
  }

  /** Digits as `toString()` writes a non-negative integer: at least one, no leading zero. */
  predicate IsCanonicalDigits(s: string)
  {
    |s| >= 1 && AllDigits(s) && (s[0] == '0' ==> |s| == 1)
  }

  /** The strings `toString()` produces for a bigint: canonical digits, with a minus sign before non-zero ones. */
  predicate IsCanonicalDecimal(s: string)
  {
    IsCanonicalDigits(s) || (|s| >= 2 && s[0] == '-' && IsCanonicalDigits(s[1..]) && s[1] != '0')
  }

  function DigitChar(d: nat): (c: char)
    requires d < 10
    ensures IsDigit(c)
  {
    ('0' as int + d) as char
  }

  function DigitValue(c: char): (d: nat)
    requires IsDigit(c)
    ensures d < 10
  {
    c as int - '0' as int
  }

  /** The decimal digits of `n`, most significant first. */
  function NatToDigits(n: nat): (s: string)
    ensures IsCanonicalDigits(s)
    decreases n
  {
    if n < 10 then [DigitChar(n)] else NatToDigits(n / 10) + [DigitChar(n % 10)]
  }

  /** The value of a string of decimal digits; leading zeros are allowed. */
  function DigitsToNat(s: string): nat
    requires AllDigits(s)
    decreases |s|
  {
    if s == [] then 0 else DigitsToNat(s[..|s| - 1]) * 10 + DigitValue(s[|s| - 1])
  }

  /** `b.toString()` for a bigint `b`. */
  function BigIntToString(b: int): (s: string)
    ensures IsCanonicalDecimal(s)
  {
    if b < 0 then "-" + NatToDigits(-b) else NatToDigits(b)
  }

  /**
   * `BigInt(s)` for a string, over the decimal part of its grammar: the empty string is 0,
   * otherwise an optional sign followed by at least one decimal digit.
   */
  function ParseBigInt(s: string): (r: Result<int, JsError>)
    ensures s == "" ==> r == Success(0)
    ensures s != "" && AllDigits(s) ==> r == Success(DigitsToNat(s))
    ensures |s| > 1 && s[0] == '-' && AllDigits(s[1..]) ==> r == Success(-(DigitsToNat(s[1..]) as int))
    ensures |s| > 1 && s[0] == '+' && AllDigits(s[1..]) ==> r == Success(DigitsToNat(s[1..]))
    ensures r.Failure? <==> s != "" && !AllDigits(s) && !(|s| > 1 && (s[0] == '-' || s[0] == '+') && AllDigits(s[1..]))
    ensures r.Failure? ==> r.error == SyntaxError
  {
    if s == "" then Success(0)
    else if s[0] == '-' && |s| > 1 && AllDigits(s[1..]) then Success(-(DigitsToNat(s[1..]) as int))
    else if s[0] == '+' && |s| > 1 && AllDigits(s[1..]) then Success(DigitsToNat(s[1..]))
    else if AllDigits(s) then Success(DigitsToNat(s))
    else Failure(SyntaxError)
  }

  /** The transformer's `to`: a bigint becomes its decimal string, anything else passes through. */
  function To(v: JsValue): (r: JsValue)
    ensures v.BigIntValue? ==> r.StringValue? && IsCanonicalDecimal(r.str)
    ensures !v.BigIntValue? ==> r == v
  {
    match v
    case BigIntValue(b) => StringValue(BigIntToString(b))
    case _ => v
  }

  /**
   * The transformer's `from`: a string or a number goes through `BigInt(...)` (which may throw),
   * anything else passes through.
   */
  function From(v: JsValue): (r: Result<JsValue, JsError>)
    ensures v.StringValue? ==> match ParseBigInt(v.str)
                                 case Success(b) => r == Success(BigIntValue(b))
                                 case Failure(e) => r == Failure(e)
    ensures v.NumberValue? ==> (r.Failure? <==> v.num != v.num.Floor as real)
    ensures v.NumberValue? && r.Failure? ==> r.error == RangeError
    ensures v.NumberValue? && r.Success? ==> r.value == BigIntValue(v.num.Floor) && r.value.big as real == v.num
    ensures !v.StringValue? && !v.NumberValue? ==> r == Success(v)
  {
    match v
    case StringValue(s) =>
      (match ParseBigInt(s)
       case Success(b) => Success(BigIntValue(b))
       case Failure(e) => Failure(e))
    case NumberValue(x) =>
      if x == x.Floor as real then Success(BigIntValue(x.Floor)) else Failure(RangeError)
    case _ => Success(v)
  }

  lemma DigitsToNatSnoc(s: string, c: char)
    requires AllDigits(s) && IsDigit(c)
    ensures AllDigits(s + [c])
    ensures DigitsToNat(s + [c]) == DigitsToNat(s) * 10 + DigitValue(c)
  {
    assert (s + [c])[..|s + [c]| - 1] == s;
  }

  /** Reading back the digits of `n` gives `n`. */
  lemma {:induction false} DigitsRoundTrip(n: nat)
    ensures DigitsToNat(NatToDigits(n)) == n
    decreases n
  {
    if n < 10 {
      assert NatToDigits(n)[..0] == [];
    } else {
      DigitsRoundTrip(n / 10);
      DigitsToNatSnoc(NatToDigits(n / 10), DigitChar(n % 10));
    }
  }

  /** Canonical digits start with a non-zero digit unless they are "0", so their value is positive. */
  lemma {:induction false} LeadingDigitPositive(s: string)
    requires |s| >= 1 && AllDigits(s) && s[0] != '0'
    ensures DigitsToNat(s) >= 1
    decreases |s|
  {
    if |s| > 1 {
      LeadingDigitPositive(s[..|s| - 1]);
    }
  }

  /** Writing out the value of canonical digits gives the same digits. */
  lemma {:induction false} CanonicalDigitsRoundTrip(s: string)
    requires IsCanonicalDigits(s)
    ensures NatToDigits(DigitsToNat(s)) == s
    decreases |s|
  {
    var n := DigitsToNat(s);
    if |s| == 1 {
      assert s[..0] == [];
    } else {
      var prefix := s[..|s| - 1];
      LeadingDigitPositive(prefix);
      CanonicalDigitsRoundTrip(prefix);
      assert n / 10 == DigitsToNat(prefix) && n % 10 == DigitValue(s[|s| - 1]);
      assert s == prefix + [s[|s| - 1]];
    }
  }

  /** `BigInt` reads non-negative digits and their negation back to the value written. */
  lemma ParseWrittenDigits(n: nat)
    ensures ParseBigInt(NatToDigits(n)) == Success(n)
    ensures n > 0 ==> ParseBigInt("-" + NatToDigits(n)) == Success(-(n as int))
  {
    var digits := NatToDigits(n);
    DigitsRoundTrip(n);
    assert digits[0] != '-' && digits[0] != '+' && digits != "";
    var negative := "-" + digits;
    assert negative[0] == '-' && |negative| > 1 && negative[1..] == digits;
  }

  /** Round trip through the column: every bigint id that is written is read back unchanged. */
  lemma RoundTrip(b: int)
    ensures From(To(BigIntValue(b))) == Success(BigIntValue(b))
  {
    if b < 0 {
      ParseWrittenDigits(-b);
      assert To(BigIntValue(b)) == StringValue("-" + NatToDigits(-b));
    } else {
      ParseWrittenDigits(b);
      assert To(BigIntValue(b)) == StringValue(NatToDigits(b));
    }
  }

  /** The other direction: a string in `toString()`'s canonical form survives `from` then `to`. */
  lemma CanonicalStringRoundTrip(s: string)
    requires IsCanonicalDecimal(s)
    ensures From(StringValue(s)).Success?
    ensures To(From(StringValue(s)).value) == StringValue(s)
  {
    if IsCanonicalDigits(s) {
      CanonicalDigitsRoundTrip(s);
    } else {
      var digits := s[1..];
      CanonicalDigitsRoundTrip(digits);
      LeadingDigitPositive(digits);
      assert s == "-" + digits;
    }
  }
}
