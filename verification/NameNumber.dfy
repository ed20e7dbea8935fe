/** The numeric arguments of algorithm names: simple_strtol (lib/vsprintf.c) as algboss.c calls it,
    on text that goes on behind the argument. */
module NameNumber {
  import opened Options
  import opened NameScanner

  /** The number of values of an unsigned long and of the u32 that keeps the result. */
  const ULONG := 0x1_0000_0000_0000_0000
  const U32 := 0x1_0000_0000

  predicate IsHex(c: char) {
    IsDigit(c) || 'a' <= c <= 'f' || 'A' <= c <= 'F'
  }

  function DigitValue(c: char): nat
    requires IsHex(c)
  {
    if IsDigit(c) then c as int - '0' as int
    else if 'a' <= c then c as int - 'a' as int + 10
    else c as int - 'A' as int + 10
  }

  /** A digit to this base. */
  predicate Counts(c: char, base: nat) {
    IsHex(c) && DigitValue(c) < base
  }

  /** simple_guess_base. */
  function GuessBase(s: string, i: nat): nat
    requires i <= |s|
  {
    if CharOf(s, i) != '0' then 10
    else if CharOf(s, i + 1) in {'x', 'X'} && IsHex(CharOf(s, i + 2)) then 16
    else 8
  }

  /** Where the digits begin. */
  function FirstDigit(s: string, i: nat): (p: nat)
    requires i <= |s|
    ensures i <= p <= |s|
  {
    if GuessBase(s, i) == 16 then i + 2 else i
  }

  /** Where the digits to this base end. */
  function DigitsEnd(s: string, i: nat, base: nat): (e: nat)
    requires i <= |s|
    ensures i <= e <= |s| && forall k | i <= k < e :: Counts(s[k], base)
    ensures e < |s| ==> !Counts(s[e], base)
    decreases |s| - i
  {
    if i < |s| && Counts(s[i], base) then DigitsEnd(s, i + 1, base) else i
  }

  /** The number with one more digit. */
  function Appended(number: nat, base: nat, digit: nat): nat {
    number * base + digit
  }

  /** The number that the digits from `i` to `e` write. */
  function Value(s: string, i: nat, e: nat, base: nat): nat
    requires i <= e <= |s| && forall k | i <= k < e :: Counts(s[k], base)
    decreases e
  {
    if i == e then 0
    else
      var k := e - 1;
      assert Counts(s[k], base);
      Appended(Value(s, i, k, base), base, DigitValue(s[k]))
  }

  /** The number that the text at `i` begins with. */
  function Number(s: string, i: nat): nat
    requires i <= |s|
  {
    var base, p := GuessBase(s, i), FirstDigit(s, i);
    Value(s, p, DigitsEnd(s, p, base), base)
  }

  lemma ModAdd(x: int, k: int, m: int)
    requires m > 0
    ensures (x + k * m) % m == x % m
  {
    var q, r := x / m, x % m;
    assert x + k * m == (q + k) * m + r by { Times(q, k, m); }
    ModUnique(x + k * m, q + k, r, m);
  }

  lemma Times(a: int, b: int, m: int)
    ensures (a + b) * m == a * m + b * m
  {}

  lemma ModUnique(x: int, q: int, r: int, m: int)
    requires m > 0 && x == q * m + r && 0 <= r < m
    ensures x % m == r
  {
    var q1 := x / m;
    Times(q, -q1, m);
    var d := q - q1;
    assert d * m == x % m - r;
    if d > 0 { Times(1, d - 1, m); }
    if d < 0 { Times(-1, d + 1, m); }
  }

  /** Wrapping at every step is wrapping at the end. */
  lemma WrapStep(a: nat, base: nat, v: nat, m: nat)
    requires m > 0
    ensures Appended(a % m, base, v) % m == Appended(a, base, v) % m
  {
    var q, r := a / m, a % m;
    assert a * base == r * base + (q * base) * m by {
      assert a == q * m + r;
      Times(q * m, r, base);
      Swap(q, m, base);
    }
    ModAdd(r * base + v, q * base, m);
  }

  lemma Swap(a: int, b: int, c: int)
    ensures (a * b) * c == (a * c) * b
  {}

  lemma Narrowed(x: nat)
    ensures (x % ULONG) % U32 == x % U32
  {
    var q, r := x / ULONG, x % ULONG;
    assert x == r + (q * U32) * U32;
    ModAdd(r, q * U32, U32);
  }

  /** simple_strtoul with the base to be guessed. */
  method Strtoul(s: string, i: nat) returns (result: nat)
    requires i <= |s|
    ensures result == Number(s, i) % ULONG
  {
    hide Appended;
    result := 0;
    var base, p := GuessBase(s, i), FirstDigit(s, i);
    ghost var first := p;
    while p < |s| && Counts(s[p], base)
      invariant first <= p <= |s| && (forall k | first <= k < p :: Counts(s[k], base))
      invariant DigitsEnd(s, first, base) == DigitsEnd(s, p, base) && result == Value(s, first, p, base) % ULONG
    {
      WrapStep(Value(s, first, p, base), base, DigitValue(s[p]), ULONG);
      result := Appended(result, base, DigitValue(s[p])) % ULONG;
      p := p + 1;
    }
  }

  /** The value of a numeric argument: the number that is written at its place, in 32 bits. */
  method NumericValue(s: string, i: nat) returns (num: nat)
    requires i <= |s|
    ensures num == Number(s, i) % U32
  {
    var result := Strtoul(s, i);
    Narrowed(Number(s, i));
    num := result % U32;
  }

  lemma {:induction false} EndsAt(s: string, i: nat, e: nat, base: nat)
    requires i <= e <= |s| && (forall k | i <= k < e :: Counts(s[k], base)) && (e < |s| ==> !Counts(s[e], base))
    ensures DigitsEnd(s, i, base) == e
    decreases e - i
  {
    if i < e { EndsAt(s, i + 1, e, base); }
  }

  lemma DigitsOf(s: string, i: nat, e: nat)
    requires i <= e < |s| && ArgEnd(s, i) == Some((e, true))
    ensures forall k | i <= k < e :: IsDigit(s[k])
  {
    forall k | i <= k < e ensures IsDigit(s[k]) { assert s[i..e][k - i] in s[i..e]; }
  }

  /** The conversion never reads beyond a numeric argument, and it takes the whole argument exactly if
      that does not begin with a zero or has no digit that is not octal. */
  lemma ReadsTheArgument(s: string, i: nat, e: nat)
    requires i <= e < |s| && ArgEnd(s, i) == Some((e, true)) && s[e] in {',', ')'}
    ensures GuessBase(s, i) == (if s[i] == '0' then 8 else 10) && FirstDigit(s, i) == i
    ensures var d := DigitsEnd(s, i, GuessBase(s, i));
            d <= e && (d == e <==> s[i] != '0' || forall k | i <= k < e :: s[k] < '8')
  {
    DigitsOf(s, i, e);
    assert i < e;
    var base := GuessBase(s, i);
    assert base == if s[i] == '0' then 8 else 10;
    var d := DigitsEnd(s, i, base);
    if s[i] != '0' || forall k | i <= k < e :: s[k] < '8' {
      EndsAt(s, i, e, base);
    } else {
      var k :| i <= k < e && s[k] >= '8';
      assert !Counts(s[k], base);
    }
  }

  /** A leading zero makes a decimal number octal: the eight is not taken. */
  lemma LeadingZero()
    ensures ArgEnd("t(08)", 2) == Some((4, true)) && Number("t(08)", 2) == 0
  {
    var s := "t(08)";
    EndsAt(s, 2, 3, 8);
    assert WordEnd(s, 2) == WordEnd(s, 3) == WordEnd(s, 4) == 4;
    assert s[2..4] == "08";
    assert Value(s, 2, 3, 8) == Appended(Value(s, 2, 2, 8), 8, 0);
  }
}
