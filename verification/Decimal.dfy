/** strconv.Itoa and strconv.Atoi on 64-bit integers. */
module Decimal {
  import opened Domain
  import opened Integers

  predicate IsDigit(c: char) { '0' <= c <= '9' }

  function DigitOf(d: nat): char
    requires d < 10
  {
    ('0' as int + d) as char
  }

  function ValueOf(c: char): nat
    requires IsDigit(c)
  {
    (c as int) - ('0' as int)
  }

  function Digits(n: nat): string {
    (if n < 10 then "" else Digits(n / 10)) + [DigitOf(n % 10)]
  }

  function Itoa(n: Int64): string {
    if n < 0 then "-" + Digits(0 - n as int) else Digits(n)
  }

  /** The value of a string of digits, None when another character is among them. */
  function Parsed(s: string): Option<nat> {
    if s == [] then Some(0)
    else match Parsed(s[..|s| - 1])
      case None => None
      case Some(n) => if IsDigit(s[|s| - 1]) then Some(10 * n + ValueOf(s[|s| - 1])) else None
  }

  /** An optional sign, then at least one digit; None on a syntax error or when the value does not fit. */
  function Atoi(s: string): Option<Int64> {
    var digits := if s != [] && (s[0] == '-' || s[0] == '+') then s[1..] else s;
    if digits == [] || Parsed(digits).None? then None
    else
      var n := if s[0] == '-' then 0 - Parsed(digits).value else Parsed(digits).value;
      if Fits64(n) then Some(n) else None
  }

  function Pow10(n: nat): nat {
    if n == 0 then 1 else 10 * Pow10(n - 1)
  }

  predicate AllDigits(s: string) {
    forall i :: 0 <= i < |s| ==> '0' <= s[i] <= '9'
  }

  /** Each digit counts by its place. */
  function PlaceValue(s: string): nat
    requires AllDigits(s)
  {
    if s == [] then 0 else (s[0] as int - '0' as int) * Pow10(|s| - 1) + PlaceValue(s[1..])
  }

  lemma {:induction false} PlaceValueAppend(s: string, c: char)
    requires AllDigits(s) && IsDigit(c)
    ensures AllDigits(s + [c]) && PlaceValue(s + [c]) == 10 * PlaceValue(s) + ValueOf(c)
  {
    if s == [] {
      assert (s + [c])[1..] == [];
    } else {
      PlaceValueAppend(s[1..], c);
      assert (s + [c])[1..] == s[1..] + [c];
      TimesTen(ValueOf(s[0]), Pow10(|s| - 1));
    }
  }

  lemma TimesTen(d: int, p: int)
    ensures d * (10 * p) == 10 * (d * p)
  {}

  lemma {:induction false} ParsedExactly(s: string)
    ensures Parsed(s) == if AllDigits(s) then Some(PlaceValue(s)) else None
  {
    if s != [] {
      var init, c := s[..|s| - 1], s[|s| - 1];
      assert s == init + [c];
      ParsedExactly(init);
      if AllDigits(init) && IsDigit(c) { PlaceValueAppend(init, c); }
    }
  }

  /** A sign or none, and digits. */
  ghost predicate Denotes(s: string, n: int) {
    exists digits ::
      && digits != "" && AllDigits(digits)
      && (((s == digits || s == "+" + digits) && n == PlaceValue(digits)) || (s == "-" + digits && n == 0 - PlaceValue(digits)))
  }

  /** Atoi reads exactly the decimal numbers that fit in 64 bits, and rejects every other text. */
  lemma AtoiExactly(s: string, n: Int64)
    ensures Atoi(s) == Some(n) <==> Denotes(s, n)
  {
    var digits := if s != [] && (s[0] == '-' || s[0] == '+') then s[1..] else s;
    ParsedExactly(digits);
    if s != [] && s[0] == '-' { assert s == "-" + digits; }
    if s != [] && s[0] == '+' { assert s == "+" + digits; }
    forall d: string | d != "" && AllDigits(d) && (s == d || s == "+" + d || s == "-" + d) ensures d == digits {
      assert d[0] != '-' && d[0] != '+';
    }
    assert '-' != '+';
  }

  lemma {:induction false} ParsedDigits(n: nat)
    ensures Digits(n) != [] && IsDigit(Digits(n)[0]) && Parsed(Digits(n)) == Some(n)
  {
    var s := Digits(n);
    if n >= 10 {
      ParsedDigits(n / 10);
      assert n == 10 * (n / 10) + n % 10;
      assert s[..|s| - 1] == Digits(n / 10);
    } else {
      assert s[..|s| - 1] == [];
    }
  }

  lemma AtoiMinus(digits: string, n: nat)
    requires digits != [] && Parsed(digits) == Some(n) && n <= 0 - MIN_INT64
    ensures Atoi("-" + digits) == Some(0 - n)
  {
    assert ("-" + digits)[1..] == digits;
  }

  lemma AtoiPlain(digits: string, n: nat)
    requires digits != [] && IsDigit(digits[0]) && Parsed(digits) == Some(n) && n <= MAX_INT64
    ensures Atoi(digits) == Some(n)
  {}

  lemma MinusDigits(n: nat)
    requires n <= 0 - MIN_INT64
    ensures Atoi("-" + Digits(n)) == Some(0 - n)
  {
    ParsedDigits(n);
    AtoiMinus(Digits(n), n);
  }

  lemma PlainDigits(n: nat)
    requires n <= MAX_INT64
    ensures Digits(n) != "" && Atoi(Digits(n)) == Some(n)
  {
    ParsedDigits(n);
    AtoiPlain(Digits(n), n);
  }

  lemma AtoiItoa(n: Int64)
    ensures Itoa(n) != "" && Atoi(Itoa(n)) == Some(n)
  {
    if n < 0 { MinusDigits(0 - n as int); } else { PlainDigits(n); }
  }
}
