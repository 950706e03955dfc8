/**
 * The few pieces of the Java platform that the task classes lean on: the 32-bit `int`,
 * the argument of `Object.equals`, the two runtime exceptions the core can raise, and
 * `Integer.toString`, which string concatenation `level + name` uses.
 */
module JavaLang {

  /** Java's `int`. */
  type Int32 = x: int | -0x8000_0000 <= x < 0x8000_0000

  /**
   * What `equals(Object other)` may be handed: `null`, an instance of the receiver's own
   * class, or an instance of some other class.
   */
  datatype Other<T> = NullRef | SameClass(value: T) | OtherClass

  /** Runtime exceptions of the core. */
  datatype Exception =
    | NullPointerException    // `Objects.requireNonNull` on null
    | NoSuchElementException  // `Optional.get` on an empty Optional

  predicate IsDigit(c: char) {
    '0' <= c <= '9'
  }

  /** A character that `Integer.toString` can produce. */
  predicate IsNumeral(c: char) {
    IsDigit(c) || c == '-'
  }

  function DigitChar(d: nat): (c: char)
    requires d < 10
    ensures IsDigit(c)
  {
    ('0' as int + d) as char
  }

  function DigitValue(c: char): (d: nat)
    requires IsDigit(c)
    ensures d < 10
  {
    c as int - '0' as int
  }

  /** The decimal digits of `n`, most significant first, without leading zeros. */
  function NatToString(n: nat): (s: string)
    ensures |s| >= 1
    ensures forall i :: 0 <= i < |s| ==> IsDigit(s[i])
    ensures s[0] == '0' ==> n == 0
    decreases n
  {
    if n < 10 then [DigitChar(n)] else NatToString(n / 10) + [DigitChar(n % 10)]
  }

  /** `Integer.toString(i)`: a minus sign for negative values, then the digits of `|i|`. */
  function IntToString(i: int): (s: string)
    ensures |s| >= 1
    ensures forall k :: 0 <= k < |s| ==> IsNumeral(s[k])
    ensures (s[0] == '-') <==> (i < 0)
  {
    if i < 0 then "-" + NatToString(-i) else NatToString(i)
  }

  /** Reads a string of decimal digits back as a number (the inverse of NatToString). */
  function ParseNat(s: string): nat
    requires forall i :: 0 <= i < |s| ==> IsDigit(s[i])
    decreases |s|
  {
    if s == [] then 0 else ParseNat(s[..|s| - 1]) * 10 + DigitValue(s[|s| - 1])
  }

  /** Reads an optionally signed decimal number (the inverse of IntToString). */
  function ParseInt(s: string): int
    requires |s| >= 1
    requires forall k :: 0 <= k < |s| ==> IsNumeral(s[k])
    requires forall k :: 1 <= k < |s| ==> IsDigit(s[k])
    requires s[0] != '-' ==> IsDigit(s[0])
  {
    if s[0] == '-' then -(ParseNat(s[1..]) as int) else ParseNat(s)
  }

  lemma {:induction false} NatToStringRoundTrip(n: nat)
    ensures ParseNat(NatToString(n)) == n
    decreases n
  {
    var s := NatToString(n);
    if n < 10 {
      assert s[..|s| - 1] == [];
    } else {
      NatToStringRoundTrip(n / 10);
      assert s[..|s| - 1] == NatToString(n / 10);
    }
  }

  lemma IntToStringRoundTrip(i: int)
    ensures ParseInt(IntToString(i)) == i
  {
    var s := IntToString(i);
    if i < 0 {
      assert s[1..] == NatToString(-i);
      NatToStringRoundTrip(-i);
    } else {
      NatToStringRoundTrip(i);
    }
  }

  /** Distinct integers render as distinct strings. */
  lemma IntToStringInjective(a: int, b: int)
    ensures IntToString(a) == IntToString(b) <==> a == b
  {
    IntToStringRoundTrip(a);
    IntToStringRoundTrip(b);
  }

  /** The number of leading characters of `s` that `Integer.toString` can produce. */
  function NumeralPrefixLength(s: string): (n: nat)
    ensures n <= |s|
  {
    if s != [] && IsNumeral(s[0]) then 1 + NumeralPrefixLength(s[1..]) else 0
  }

  /** Concatenating a numeral with a text that starts with a non-numeral keeps the numeral recoverable. */
  lemma {:induction false} NumeralPrefixOfConcat(x: string, y: string)
    requires forall k :: 0 <= k < |x| ==> IsNumeral(x[k])
    requires y != [] && !IsNumeral(y[0])
    ensures NumeralPrefixLength(x + y) == |x|
  {
    if x == [] {
      assert x + y == y;
    } else {
      assert (x + y)[1..] == x[1..] + y;
      NumeralPrefixOfConcat(x[1..], y);
    }
  }
}
