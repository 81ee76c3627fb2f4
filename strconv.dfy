/**
  Go's `strconv.Atoi` on a 64-bit platform, which the dismiss handler uses to read
  its `index` query parameter, together with the decimal rendering `strconv.Itoa`
  that it inverts.
 */
module Strconv {
  import opened Wrappers

  const MinInt: int := -0x8000_0000_0000_0000
  const MaxInt: int := 0x7FFF_FFFF_FFFF_FFFF

  predicate IsDigit(c: char)
  {
    '0' <= c <= '9'
  }

  predicate AllDigits(s: string)
  {
    forall k :: 0 <= k < |s| ==> IsDigit(s[k])
  }

  /** The value of a string of decimal digits, most significant first. */
  function DigitsValue(s: string): nat
    requires AllDigits(s)
    decreases |s|
  {
    if s == [] then 0 else DigitsValue(s[..|s| - 1]) * 10 + ((s[|s| - 1] as int) - ('0' as int))
  }

  /**
    Atoi accepts an optional '+' or '-' followed by at least one decimal digit, and
    fails on anything else and on values outside the 64-bit int range.
   */
  function Atoi(s: string): (r: Option<int>)
    ensures r.Some? ==> MinInt <= r.value <= MaxInt
    ensures r.Some? ==> s != "" && (IsDigit(s[0]) || s[0] == '-' || s[0] == '+')
    ensures r.Some? ==> var d := if s[0] == '-' || s[0] == '+' then s[1..] else s;
                        d != [] && AllDigits(d)
  {
    var digits := if |s| > 0 && (s[0] == '-' || s[0] == '+') then s[1..] else s;
    if digits == [] || !AllDigits(digits) then None
    else
      var magnitude: int := DigitsValue(digits);
      var n := if s[0] == '-' then -magnitude else magnitude;
      if MinInt <= n <= MaxInt then Some(n) else None
  }

  function DigitChar(d: nat): (c: char)
    requires d < 10
    ensures IsDigit(c) && (c as int) - ('0' as int) == d
  {
    ('0' as int + d) as char
  }

  /** Decimal digits of n without leading zeros. */
  function NatToString(n: nat): (s: string)
    ensures s != [] && AllDigits(s)
    ensures n >= 10 <==> |s| > 1
    ensures n > 0 ==> s[0] != '0'
    decreases n
  {
    if n < 10 then [DigitChar(n)] else NatToString(n / 10) + [DigitChar(n % 10)]
  }

  /** strconv.Itoa: decimal rendering with a leading '-' for negative numbers. */
  function Itoa(n: int): (s: string)
  {
    if n < 0 then "-" + NatToString(-n) else NatToString(n)
  }

  lemma {:induction false} DigitsValueOfNatToString(n: nat)
    ensures DigitsValue(NatToString(n)) == n
    decreases n
  {
    var s := NatToString(n);
    if n >= 10 {
      DigitsValueOfNatToString(n / 10);
      assert s[..|s| - 1] == NatToString(n / 10);
    }
  }

  /** Atoi reads back every 64-bit int that Itoa renders. */
  lemma AtoiItoa(n: int)
    requires MinInt <= n <= MaxInt
    ensures Atoi(Itoa(n)) == Some(n)
  {
    var s := Itoa(n);
    if n < 0 {
      DigitsValueOfNatToString(-n);
      assert s[1..] == NatToString(-n);
    } else {
      DigitsValueOfNatToString(n);
    }
  }

  /** The unsigned digits after an optional sign, as Atoi reads them. */
  function Unsigned(s: string): string
  {
    if |s| > 0 && (s[0] == '-' || s[0] == '+') then s[1..] else s
  }

  /** The value of a sign-and-digits string: the digits' value, negated after '-'. */
  function SignedValue(s: string): int
    requires s != [] && AllDigits(Unsigned(s))
  {
    var magnitude: int := DigitsValue(Unsigned(s));
    if s[0] == '-' then -magnitude else magnitude
  }

  /**
    Atoi accepts exactly an optional sign followed by at least one digit whose value,
    negated after '-', lies in the 64-bit range; leading zeros and '+' are allowed.
   */
  lemma AtoiExactly(s: string)
    ensures Atoi(s).Some? <==>
              s != [] && Unsigned(s) != [] && AllDigits(Unsigned(s)) && MinInt <= SignedValue(s) <= MaxInt
    ensures Atoi(s).Some? ==> Atoi(s).value == SignedValue(s)
  {
  }

  /** Non-canonical renderings that Atoi still reads, and malformed ones it refuses. */
  lemma AtoiExamples()
    ensures Atoi("+7") == Some(7) && Atoi("007") == Some(7) && Atoi("-12") == Some(-12)
    ensures Atoi("1x") == None && Atoi("-") == None && Atoi("") == None && Atoi(" 1") == None
  {
    assert DigitsValue("7") == 7;
    assert "007"[..2] == "00" && "00"[..1] == "0";
    assert "12"[..1] == "1";
    assert !IsDigit("1x"[1]);
    assert !IsDigit(" 1"[0]);
  }
}
