/**
 Models of Go's `strconv.Atoi` and `strconv.Itoa` for the 64-bit `int` of the
 platforms the plugin is built for. `Atoi` accepts an optional `+` or `-`
 followed by at least one ASCII digit, and rejects values outside the `int`
 range; `Itoa` prints the shortest decimal text, with `-` for negatives.
 */
module GoConv {
  import opened Wrappers

  /** Smallest value of Go's 64-bit `int`. */
  const MinInt: int := -0x8000_0000_0000_0000
  /** Largest value of Go's 64-bit `int`. */
  const MaxInt: int := 0x7FFF_FFFF_FFFF_FFFF

  predicate IsDigit(c: char)
  {
    '0' <= c <= '9'
  }

  predicate AllDigits(s: string)
  {
    forall k :: 0 <= k < |s| ==> IsDigit(s[k])
  }

  function DigitValue(c: char): nat
    requires IsDigit(c)
  {
    (c as int) - ('0' as int)
  }

  function DigitChar(d: nat): (c: char)
    requires d < 10
    ensures IsDigit(c) && DigitValue(c) == d
  {
    (('0' as int) + d) as char
  }

  /** Value of a string of decimal digits, most significant digit first. */
  function DigitsValue(s: string): nat
    requires AllDigits(s)
    decreases |s|
  {
    if |s| == 0 then 0
    else 10 * DigitsValue(s[..|s| - 1]) + DigitValue(s[|s| - 1])
  }

  predicate IsSign(c: char)
  {
    c == '+' || c == '-'
  }

  /** The base-10 grammar of `strconv.Atoi`: an optional sign, then one or more digits. */
  predicate IsDecimal(s: string)
  {
    if |s| > 0 && IsSign(s[0]) then |s| > 1 && AllDigits(s[1..])
    else |s| > 0 && AllDigits(s)
  }

  /** The mathematical value of a decimal text, sign included. */
  function DecimalValue(s: string): int
    requires IsDecimal(s)
  {
    if s[0] == '-' then -(DigitsValue(s[1..]) as int)
    else if s[0] == '+' then DigitsValue(s[1..])
    else DigitsValue(s)
  }

  /**
   `strconv.Atoi`: the value of `s` when it is a decimal that fits in `int`,
   otherwise an error (`None`). The empty string and a lone sign are errors.
   */
  function Atoi(s: string): (r: Option<int>)
    ensures r.Some? ==> |s| > 0 && MinInt <= r.value <= MaxInt
    ensures r.Some? ==> AllDigits(s[1..]) && (IsDigit(s[0]) || IsSign(s[0]))
    ensures r.Some? ==> IsDecimal(s) && r.value == DecimalValue(s)
    ensures IsDecimal(s) && MinInt <= DecimalValue(s) <= MaxInt ==> r.Some?
  {
    if IsDecimal(s) && MinInt <= DecimalValue(s) <= MaxInt then Some(DecimalValue(s))
    else None
  }

  /** Appending a digit shifts the value one decimal place. */
  lemma DigitsValueSnoc(s: string, c: char)
    requires AllDigits(s) && IsDigit(c)
    ensures AllDigits(s + [c])
    ensures DigitsValue(s + [c]) == 10 * DigitsValue(s) + DigitValue(c)
  {
  }

  /** Decimal digits of a natural number, without leading zeros. */
  function NatDigits(n: nat): (s: string)
    ensures |s| >= 1 && AllDigits(s)
    ensures DigitsValue(s) == n
    ensures s[0] == '0' ==> s == "0"
    decreases n
  {
    if n < 10 then [DigitChar(n)]
    else
      var prefix := NatDigits(n / 10);
      var c := DigitChar(n % 10);
      DigitsValueSnoc(prefix, c);
      prefix + [c]
  }

  /** `strconv.Itoa`: the decimal text of `n`; it reads back as `n`. */
  function Itoa(n: int): (s: string)
    ensures IsDecimal(s) && DecimalValue(s) == n
    ensures n >= 0 ==> AllDigits(s)
    ensures n < 0 ==> s[0] == '-'
    ensures n >= 0 ==> (s[0] == '0' ==> s == "0")
    ensures n < 0 ==> |s| > 1 && s[1] != '0'
  {
    if n < 0 then
      var digits := NatDigits(-n);
      assert ("-" + digits)[1..] == digits;
      "-" + digits
    else NatDigits(n)
  }

  /** Round trip: every `int` value printed by `Itoa` is parsed back by `Atoi`. */
  lemma AtoiItoa(n: int)
    requires MinInt <= n <= MaxInt
    ensures Atoi(Itoa(n)) == Some(n)
  {
  }

  /** A leading zero does not change the value of a string of digits. */
  lemma {:induction false} DigitsValueLeadingZero(s: string)
    requires AllDigits(s)
    ensures AllDigits("0" + s)
    ensures DigitsValue("0" + s) == DigitsValue(s)
    decreases |s|
  {
    if |s| > 0 {
      var init := s[..|s| - 1];
      DigitsValueLeadingZero(init);
      assert ("0" + s)[..|s|] == "0" + init;
    }
  }

  /** Leading zeros are accepted: `"0"` followed by the decimal text of `n` parses to `n`. */
  lemma AtoiLeadingZero(n: int)
    requires 0 <= n <= MaxInt
    ensures Atoi("0" + Itoa(n)) == Some(n)
  {
    DigitsValueLeadingZero(Itoa(n));
  }

  /** A leading `+` is accepted and does not change the value. */
  lemma AtoiPlusSign(n: int)
    requires 0 <= n <= MaxInt
    ensures Atoi("+" + Itoa(n)) == Some(n)
  {
  }

  /** A character that is not a digit rejects the text, unless it is a sign in the first position. */
  lemma AtoiRejectsNonDigit(s: string, k: nat)
    requires k < |s| && !IsDigit(s[k])
    requires k > 0 || !IsSign(s[k])
    ensures Atoi(s) == None
  {
  }
}
