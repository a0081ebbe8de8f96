/** The numeric side of the offer form: the JavaScript `x || d` fallback on a
    number that may be missing, and the reading of the price field with
    `Number(price) || 0`. Amounts are whole numbers (see README). */
module Numbers {
  import opened Optional

  /** JavaScript `x || d` where `x` is a number or missing: a present, non-zero
      number is truthy and wins; a missing value, 0 or NaN (here: None) is
      falsy and gives the default. */
  function Or(x: Option<int>, d: int): (r: int)
    ensures x.Some? && x.value != 0 ==> r == x.value
    ensures x.None? || x.value == 0 ==> r == d
  {
    match x
    case Some(v) => if v != 0 then v else d
    case None => d
  }

  predicate IsDigit(c: char) { '0' <= c <= '9' }

  predicate AllDigits(s: string) { forall i :: 0 <= i < |s| ==> IsDigit(s[i]) }

  function DigitValue(c: char): (v: nat)
    requires IsDigit(c)
    ensures v < 10
  {
    c as int - '0' as int
  }

  function DigitChar(d: nat): (c: char)
    requires d < 10
    ensures IsDigit(c) && DigitValue(c) == d
  {
    ('0' as int + d) as char
  }

  /** The value of a string of decimal digits, most significant first. */
  function DigitsValue(s: string): nat
    requires AllDigits(s)
  {
    if s == [] then 0 else DigitsValue(s[..|s| - 1]) * 10 + DigitValue(s[|s| - 1])
  }

  /** The decimal digits of `n`, without leading zeros (Number.prototype.toString
      of a non-negative whole number). */
  function Digits(n: nat): (s: string)
    ensures |s| > 0 && AllDigits(s)
    ensures |s| > 1 ==> s[0] != '0'
  {
    if n < 10 then [DigitChar(n)] else Digits(n / 10) + [DigitChar(n % 10)]
  }

  /** Number.prototype.toString of a whole number. */
  function Decimal(n: int): (s: string)
    ensures |s| > 0
    ensures n >= 0 <==> s[0] != '-'
  {
    if n < 0 then "-" + Digits(-n) else Digits(n)
  }

  /** Number(s) on what an `<input type="number">` holds: the empty string reads
      as 0, an optional minus sign followed by one or more decimal digits reads
      as that whole number, and anything else is NaN (None). */
  function ParseNumber(s: string): (r: Option<int>)
    ensures s == "" ==> r == Some(0)
    ensures AllDigits(s) ==> r == Some(if s == "" then 0 else DigitsValue(s))
    ensures |s| > 1 && s[0] == '-' && AllDigits(s[1..]) ==> r == Some(-(DigitsValue(s[1..]) as int))
    ensures r.Some? && r.value < 0 ==> |s| > 1 && s[0] == '-'
    ensures r.None? <==> s != "" && !AllDigits(s) && (s[0] != '-' || s == "-" || !AllDigits(s[1..]))
  {
    if s == "" then Some(0)
    else if AllDigits(s) then Some(DigitsValue(s))
    else if s[0] == '-' && |s| > 1 && AllDigits(s[1..]) then Some(-(DigitsValue(s[1..]) as int))
    else None
  }

  /** `Number(price) || 0`: the base price of an offer. */
  function BasePrice(price: string): (r: int)
    ensures ParseNumber(price).None? ==> r == 0
    ensures ParseNumber(price).Some? ==> r == ParseNumber(price).value
  {
    Or(ParseNumber(price), 0)
  }

  lemma {:induction false} DigitsRoundTrip(n: nat)
    ensures DigitsValue(Digits(n)) == n
  {
    if n >= 10 {
      var s := Digits(n);
      assert s[..|s| - 1] == Digits(n / 10);
      DigitsRoundTrip(n / 10);
    }
  }

  /** Reading back what toString wrote gives the number again. */
  lemma {:induction false} ParseDecimal(n: int)
    ensures ParseNumber(Decimal(n)) == Some(n)
  {
    var s := Decimal(n);
    if n < 0 {
      assert s[1..] == Digits(-n);
      assert !IsDigit(s[0]);
      DigitsRoundTrip(-n);
    } else {
      DigitsRoundTrip(n);
    }
  }

  /** The base price read from a whole number's decimal text is that number. */
  lemma BasePriceOfDecimal(n: int)
    ensures BasePrice(Decimal(n)) == n
  {
    ParseDecimal(n);
  }
}
