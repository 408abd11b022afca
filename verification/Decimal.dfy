/** Decimal numerals: what `%d` prints and what `strconv.Atoi` accepts. */
module Decimal {
  import opened Wrappers

  // Go's `int` and `int64` on a 64-bit machine.
  const MIN_INT: int := -0x8000_0000_0000_0000
  const MAX_INT: int := 0x7fff_ffff_ffff_ffff
  type GoInt = n: int | MIN_INT <= n <= MAX_INT

  predicate IsDigit(c: char) {
    '0' <= c <= '9'
  }

  predicate AllDigits(s: string) {
    s != "" && forall c :: c in s ==> IsDigit(c)
  }

  function DigitChar(d: nat): (c: char)
    requires d < 10
    ensures IsDigit(c) && DigitValue(c) == d
  {
    ('0' as int + d) as char
  }

  function DigitValue(c: char): (d: nat)
    requires IsDigit(c)
    ensures d < 10
  {
    c as int - '0' as int
  }

  /** The numeral of `n`, without leading zeros. */
  function Print(n: nat): (s: string)
    ensures AllDigits(s)
  {
    if n < 10 then [DigitChar(n)] else Print(n / 10) + [DigitChar(n % 10)]
  }

  /** The number a digit string denotes; leading zeros are allowed. */
  function Value(s: string): nat
    requires forall c :: c in s ==> IsDigit(c)
  {
    if s == "" then 0 else Value(s[..|s| - 1]) * 10 + DigitValue(s[|s| - 1])
  }

  lemma {:induction false} ValuePrint(n: nat)
    ensures Value(Print(n)) == n
  {
    var s := Print(n);
    if n < 10 {
      assert s[..|s| - 1] == "" && s[|s| - 1] == DigitChar(n);
    } else {
      ValuePrint(n / 10);
      assert s[..|s| - 1] == Print(n / 10);
      assert s[|s| - 1] == DigitChar(n % 10);
    }
  }

  lemma {:induction false} PrintInjective(m: nat, n: nat)
    requires Print(m) == Print(n)
    ensures m == n
  {
    ValuePrint(m);
    ValuePrint(n);
  }

  lemma {:induction false} DigitsInOrder(d: nat)
    requires d < 10
    ensures DigitChar(d) == "0123456789"[d] && DigitValue("0123456789"[d]) == d
  {
  }

  lemma {:induction false} NoLeadingZero(n: nat)
    ensures Print(n)[0] == '0' ==> n == 0 && Print(n) == "0"
  {
    if n >= 10 {
      NoLeadingZero(n / 10);
      assert Print(n)[0] == Print(n / 10)[0];
    }
  }

  /** A digit string is the numeral of its value after some zeros. */
  lemma {:induction false} LeadingZeros(s: string)
    requires AllDigits(s)
    ensures var n := |s| - |Print(Value(s))|;
            n >= 0 && s[n..] == Print(Value(s)) && forall k :: 0 <= k < n ==> s[k] == '0'
  {
    hide Print, Value;
    var init, d := s[..|s| - 1], s[|s| - 1];
    OneDigitMore(init, d);
    assert s == init + [d];
    if init != "" {
      assert forall c :: c in init ==> c in s;
      LeadingZeros(init);
      assert Value(init) == 0 ==> init[|init| - 1] == '0';
    }
  }

  lemma {:induction false} OneDigitMore(init: string, d: char)
    requires IsDigit(d) && forall c :: c in init ==> IsDigit(c)
    ensures Value(init + [d]) == Value(init) * 10 + DigitValue(d)
    ensures Print(Value(init + [d])) == if Value(init) == 0 then [d] else Print(Value(init)) + [d]
    ensures Print(0) == "0" && (init == "" ==> Value(init) == 0)
  {
    assert (init + [d])[..|init|] == init;
    assert DigitChar(DigitValue(d)) == d;
  }

  function InRange(n: int): Option<GoInt> {
    if MIN_INT <= n <= MAX_INT then Some(n) else None
  }

  /** `strconv.Atoi`: an optional sign, at least one digit, within range. */
  function Atoi(s: string): Option<GoInt> {
    if AllDigits(s) then InRange(Value(s))
    else if s != "" && s[0] == '+' && AllDigits(s[1..]) then InRange(Value(s[1..]))
    else if s != "" && s[0] == '-' && AllDigits(s[1..]) then InRange(0 - Value(s[1..]))
    else None
  }

  lemma {:induction false} AtoiPrint(n: nat)
    ensures Atoi(Print(n)) == if n <= MAX_INT then Some(n) else None
  {
    ValuePrint(n);
  }

  /** What is accepted, and with which value: digits, perhaps after a sign, within 64 bits. */
  lemma {:induction false} AtoiSigned(digits: string)
    requires AllDigits(digits)
    ensures var n := Value(digits);
            && Atoi(digits) == Atoi("+" + digits) == (if n <= 9223372036854775807 then Some(n) else None)
            && Atoi("-" + digits) == (if n <= 9223372036854775808 then Some(0 - n) else None)
  {
    assert forall sign :: sign in ["+", "-"] ==> (sign + digits)[1..] == digits && sign[0] in sign + digits;
  }

  lemma {:induction false} AtoiOnlySigned(s: string)
    requires Atoi(s).Some?
    ensures exists digits :: AllDigits(digits) && (s == digits || s == "+" + digits || s == "-" + digits)
  {
    if !AllDigits(s) {
      assert s == [s[0]] + s[1..];
    }
  }
}
