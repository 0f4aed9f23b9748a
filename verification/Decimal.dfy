/** Decimal printing and parsing as `strconv` does it on a 64-bit platform. */
module Decimal {
  import opened Wrappers

  const TWO_TO_63: int := 0x8000_0000_0000_0000
  const TWO_TO_64: int := 0x1_0000_0000_0000_0000
  const DIGITS: string := "0123456789"

  predicate IsDigit(c: char) { '0' <= c <= '9' }

  predicate AllDigits(s: string) { forall i :: 0 <= i < |s| ==> IsDigit(s[i]) }

  /** The decimal digits of `n`, most significant first, without leading zeros. */
  function Digits(n: nat): (s: string)
    ensures s != [] && AllDigits(s)
  {
    if n < 10 then [DIGITS[n]] else Digits(n / 10) + [DIGITS[n % 10]]
  }

  function Itoa(n: int): (s: string)
  {
    if n < 0 then "-" + Digits(-n) else Digits(n)
  }

  /** Conversion of a 64-bit unsigned counter (below 2^64) to `int`: the top half wraps to negatives. */
  function ToInt64(bytes: nat): int {
    if bytes < TWO_TO_63 then bytes else bytes - TWO_TO_64
  }

  function DigitsValue(s: string): nat
    requires AllDigits(s)
  {
    if s == [] then 0
    else 10 * DigitsValue(s[..|s| - 1]) + (s[|s| - 1] as int - '0' as int)
  }

  /** `strconv.ParseUint(s, 10, 0)`: no sign, no empty text, at most 64 bits. */
  function ParseUint(s: string): Option<nat> {
    if s == [] || !AllDigits(s) || DigitsValue(s) >= TWO_TO_64 then None else Some(DigitsValue(s))
  }

  /** `strconv.Atoi`: an optional sign, then digits, within 64-bit `int`. */
  function Atoi(s: string): Option<int> {
    if s != [] && s[0] == '-' then Signed(-1, s[1..])
    else if s != [] && s[0] == '+' then Signed(1, s[1..])
    else Signed(1, s)
  }

  function Signed(sign: int, body: string): Option<int> {
    if body == [] || !AllDigits(body) then None
    else if -TWO_TO_63 <= sign * DigitsValue(body) < TWO_TO_63 then Some(sign * DigitsValue(body))
    else None
  }

  lemma {:induction false} DigitsRoundTrip(n: nat)
    ensures DigitsValue(Digits(n)) == n
  {
    if n >= 10 {
      DigitsRoundTrip(n / 10);
      assert Digits(n)[..|Digits(n)| - 1] == Digits(n / 10);
    }
  }

  /** No leading zeros. */
  lemma {:induction false} DigitsCanonical(n: nat)
    ensures Digits(n)[0] == '0' <==> n == 0
    ensures |Digits(n)| == 1 <==> n < 10
  {
    if n >= 10 {
      DigitsCanonical(n / 10);
      assert Digits(n)[0] == Digits(n / 10)[0];
    }
  }

  lemma SignedDigits(sign: int, n: nat)
    requires sign == 1 || sign == -1
    ensures Signed(sign, Digits(n)) == if -TWO_TO_63 <= sign * n < TWO_TO_63 then Some(sign * n) else None
  {
    var s := Digits(n);
    DigitsRoundTrip(n);
    assert sign * DigitsValue(s) == sign * n;
  }

  lemma AtoiSign(s: string)
    requires s != [] && AllDigits(s)
    ensures Atoi(s) == Signed(1, s) && Atoi("-" + s) == Signed(-1, s) && Atoi("+" + s) == Signed(1, s)
  {
    assert IsDigit(s[0]);
    assert ("-" + s)[1..] == s && ("+" + s)[1..] == s;
  }

  /** `Atoi` undoes `Itoa` exactly on the 64-bit integers. */
  lemma AtoiItoa(n: int)
    ensures Atoi(Itoa(n)) == if -TWO_TO_63 <= n < TWO_TO_63 then Some(n) else None
  {
    var magnitude := if n < 0 then -n else n;
    SignedDigits(if n < 0 then -1 else 1, magnitude);
  }

  lemma CounterReadsBack(bytes: nat)
    requires bytes < TWO_TO_63
    ensures Atoi(Itoa(ToInt64(bytes))) == Some(bytes)
  {
    AtoiItoa(bytes);
  }

  /** The printed counter parses back as an unsigned number exactly while its top bit is clear. */
  lemma ParseUintCounter(bytes: nat)
    requires bytes < TWO_TO_64
    ensures ParseUint(Itoa(ToInt64(bytes))) == if bytes < TWO_TO_63 then Some(bytes) else None
  {
    if bytes < TWO_TO_63 {
      DigitsRoundTrip(bytes);
    } else {
      assert Itoa(ToInt64(bytes))[0] == '-';
    }
  }

  /** The conversion to `int` keeps the 64 bits. */
  lemma SameBits(bytes: nat)
    requires bytes < TWO_TO_64
    ensures -TWO_TO_63 <= ToInt64(bytes) < TWO_TO_63 && (ToInt64(bytes) - bytes) % TWO_TO_64 == 0
  {
  }

  // ----- which texts are numbers

  function Zeros(k: nat): string { seq(k, _ => '0') }

  lemma {:induction false} ZerosAddNothing(k: nat, n: nat)
    ensures AllDigits(Zeros(k) + Digits(n)) && DigitsValue(Zeros(k) + Digits(n)) == n
  {
    var s := Zeros(k) + Digits(n);
    if n >= 10 {
      ZerosAddNothing(k, n / 10);
      assert s[..|s| - 1] == Zeros(k) + Digits(n / 10);
    } else {
      ZerosAreNothing(k);
      assert s[..|s| - 1] == Zeros(k);
    }
  }

  lemma {:induction false} ZerosAreNothing(k: nat)
    ensures DigitsValue(Zeros(k)) == 0
  {
    if k > 0 {
      ZerosAreNothing(k - 1);
      assert Zeros(k)[..k - 1] == Zeros(k - 1);
    }
  }

  lemma DigitChar(c: char)
    requires IsDigit(c)
    ensures Digits(c as int - '0' as int) == [c]
  {
  }

  lemma NextDigit(v: nat, c: char)
    requires v >= 1 && IsDigit(c)
    ensures Digits(10 * v + (c as int - '0' as int)) == Digits(v) + [c]
  {
    var n := 10 * v + (c as int - '0' as int);
    assert n / 10 == v && n % 10 == c as int - '0' as int;
    DigitChar(c);
  }

  /** One more digit after a number in canonical form, after some zeros. */
  lemma OneMoreDigit(init: string, k: nat, v: nat, c: char) returns (k': nat)
    requires init == Zeros(k) + Digits(v) && IsDigit(c)
    ensures init + [c] == Zeros(k') + Digits(10 * v + (c as int - '0' as int))
  {
    if v == 0 {
      k' := k + 1;
      DigitChar(c);
      assert Zeros(k) + "0" == Zeros(k + 1);
    } else {
      k' := k;
      NextDigit(v, c);
    }
  }

  lemma ValueAppend(init: string, c: char)
    requires AllDigits(init) && IsDigit(c)
    ensures AllDigits(init + [c]) && DigitsValue(init + [c]) == 10 * DigitsValue(init) + (c as int - '0' as int)
  {
    assert (init + [c])[..|init|] == init;
  }

  lemma {:induction false} ZerosThenLast(init: string, c: char, v: nat) returns (k: nat)
    requires AllDigits(init) && IsDigit(c) && v == DigitsValue(init)
    ensures init + [c] == Zeros(k) + Digits(10 * v + (c as int - '0' as int))
    decreases |init|
  {
    if init == [] {
      k := 0;
      DigitChar(c);
    } else {
      var front, last := init[..|init| - 1], init[|init| - 1];
      assert init == front + [last];
      ValueAppend(front, last);
      var before := ZerosThenLast(front, last, DigitsValue(front));
      k := OneMoreDigit(init, before, v, c);
    }
  }

  /** A text of digits is its number in canonical form after some zeros. */
  lemma ZerosThenDigits(s: string) returns (k: nat)
    requires s != [] && AllDigits(s)
    ensures s == Zeros(k) + Digits(DigitsValue(s))
  {
    var front, last := s[..|s| - 1], s[|s| - 1];
    assert s == front + [last];
    ValueAppend(front, last);
    k := ZerosThenLast(front, last, DigitsValue(front));
  }

  /** `ParseUint` reads exactly the printed 64-bit numbers, with any zeros in front. */
  lemma ParseUintIff(s: string, n: nat)
    ensures ParseUint(s) == Some(n) <==> n < TWO_TO_64 && exists k: nat :: s == Zeros(k) + Digits(n)
  {
    if ParseUint(s) == Some(n) {
      var k := ZerosThenDigits(s);
    }
    if k: nat :| s == Zeros(k) + Digits(n) {
      ZerosAddNothing(k, n);
    }
  }

  /** A sign or none that fits the number, some zeros, and the number's digits. */
  ghost predicate SpelledWith(s: string, sign: string, k: nat, n: int) {
    && (if sign == "-" then n <= 0 else n >= 0)
    && s == sign + (Zeros(k) + Digits(if n >= 0 then n else -n))
  }

  ghost predicate Spelled(s: string, n: int) {
    exists sign: string, k: nat :: sign in {"", "+", "-"} && SpelledWith(s, sign, k, n)
  }

  lemma SignedValue(sign: int, body: string, n: nat)
    requires (sign == 1 || sign == -1) && body != [] && AllDigits(body) && DigitsValue(body) == n
    ensures -TWO_TO_63 <= sign * n < TWO_TO_63 ==> Signed(sign, body) == Some(sign * n)
  {
    assert sign * DigitsValue(body) == sign * n;
  }

  lemma SpelledAtoi(s: string, sign: string, k: nat, n: int)
    requires sign in {"", "+", "-"} && (if sign == "-" then n <= 0 else n >= 0)
    requires s == sign + (Zeros(k) + Digits(if n >= 0 then n else -n))
    ensures -TWO_TO_63 <= n < TWO_TO_63 ==> Atoi(s) == Some(n)
  {
    var body := Zeros(k) + Digits(if n >= 0 then n else -n);
    ZerosAddNothing(k, if n >= 0 then n else -n);
    AtoiSign(body);
    SignedValue(if sign == "-" then -1 else 1, body, if n >= 0 then n else -n);
    assert sign == "" ==> s == body;
  }

  /** `Atoi` reads exactly the printed 64-bit integers, with a sign or none, and any zeros in front. */
  lemma AtoiIff(s: string, n: int)
    ensures Atoi(s) == Some(n) <==> -TWO_TO_63 <= n < TWO_TO_63 && Spelled(s, n)
  {
    if Atoi(s) == Some(n) {
      AtoiSpelled(s, n);
    } else if sign: string, k: nat :| sign in {"", "+", "-"} && SpelledWith(s, sign, k, n) {
      SpelledAtoi(s, sign, k, n);
    }
  }

  lemma SignedBody(sign: int, body: string, n: int)
    requires (sign == 1 || sign == -1) && Signed(sign, body) == Some(n)
    ensures body != [] && AllDigits(body) && -TWO_TO_63 <= n < TWO_TO_63
    ensures n == sign * DigitsValue(body)
  {
  }

  lemma AtoiSpelled(s: string, n: int)
    requires Atoi(s) == Some(n)
    ensures Spelled(s, n) && -TWO_TO_63 <= n < TWO_TO_63
  {
    var signed := s[0] == '-' || s[0] == '+';
    var sign, body := if signed then [s[0]] else "", if signed then s[1..] else s;
    SignedBody(if sign == "-" then -1 else 1, body, n);
    var k := ZerosThenDigits(body);
    assert s == sign + body;
    assert SpelledWith(s, sign, k, n);
  }
}
