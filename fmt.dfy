/** The part of Go's `fmt` the manager relies on: printing a natural number in
    base 10 (`%d`, used for a callback's index) and base 16 with lower-case
    letters (`%p`, used for a transaction's address), with no leading zeros.
    `Value` reads such a string back; it exists to prove that printing is
    injective, which is what makes these strings usable as map keys. */
module Fmt {

  /** A base `%d` or `%p` prints in. */
  type Base = b: nat | 2 <= b <= 16 witness 10

  /** The character for one digit: `0`-`9`, then `a`-`f`. */
  function DigitChar(d: nat): (c: char)
    requires d < 16
    ensures '0' <= c <= '9' || 'a' <= c <= 'f'
  {
    if d < 10 then (48 + d) as char else (97 + d - 10) as char
  }

  /** The digit a character stands for (the inverse of `DigitChar`). */
  function DigitValue(c: char): nat
  {
    if '0' <= c <= '9' then c as nat - 48
    else if 'a' <= c <= 'f' then c as nat - 97 + 10
    else 0
  }

  /** True of the characters `Digits` can produce in base `b`. */
  predicate IsDigit(c: char, b: Base)
  {
    ('0' <= c <= '9' || 'a' <= c <= 'f') && DigitValue(c) < b
  }

  /** Euclidean division by the base, as the printing loop uses it. */
  lemma DivideByBase(n: nat, b: Base)
    ensures n == (n / b) * b + n % b && n % b < b
    ensures n >= b ==> 1 <= n / b < n
  {
  }

  /** `n` printed in base `b`, most significant digit first, no leading zero. */
  function Digits(n: nat, b: Base): (s: seq<char>)
    ensures |s| >= 1
    ensures forall i :: 0 <= i < |s| ==> IsDigit(s[i], b)
    ensures s[0] == '0' <==> n == 0
    decreases n
  {
    if n < b then [DigitChar(n)]
    else
      DivideByBase(n, b);
      Digits(n / b, b) + [DigitChar(n % b)]
  }

  /** The number a string of digits stands for in base `b`. */
  function Value(s: seq<char>, b: Base): nat
  {
    if s == [] then 0 else Value(s[..|s| - 1], b) * b + DigitValue(s[|s| - 1])
  }

  /** Reading back what was printed gives the number printed. */
  lemma {:induction false} ValueOfDigits(n: nat, b: Base)
    ensures Value(Digits(n, b), b) == n
    decreases n
  {
    var s := Digits(n, b);
    if n < b {
      assert s[..|s| - 1] == [];
    } else {
      DivideByBase(n, b);
      ValueOfDigits(n / b, b);
      assert s[..|s| - 1] == Digits(n / b, b);
      assert DigitValue(s[|s| - 1]) == n % b;
    }
  }

  /** Printing is injective: two numbers print alike only when they are equal. */
  lemma DigitsInjective(m: nat, n: nat, b: Base)
    requires Digits(m, b) == Digits(n, b)
    ensures m == n
  {
    ValueOfDigits(m, b);
    ValueOfDigits(n, b);
  }

  /** How many digits of base `b` the string starts with. */
  function LeadingDigits(x: seq<char>, b: Base): (k: nat)
    ensures k <= |x|
  {
    if x == [] || !IsDigit(x[0], b) then 0 else 1 + LeadingDigits(x[1..], b)
  }

  /** Digits followed by a non-digit: the run of leading digits is exactly
      the digits. */
  lemma {:induction false} LeadingDigitsBeforeSeparator(d: seq<char>, s: seq<char>, b: Base)
    requires forall i :: 0 <= i < |d| ==> IsDigit(d[i], b)
    requires |s| > 0 && !IsDigit(s[0], b)
    ensures LeadingDigits(d + s, b) == |d|
  {
    if d == [] {
      assert d + s == s;
    } else {
      assert (d + s)[0] == d[0] && (d + s)[1..] == d[1..] + s;
      LeadingDigitsBeforeSeparator(d[1..], s, b);
    }
  }

  /** A printed number followed by a non-digit can be read off unambiguously:
      if two such strings are equal, so are the numbers and what follows. */
  lemma DigitsThenSeparator(m: nat, n: nat, b: Base, s: seq<char>, t: seq<char>)
    requires |s| > 0 && |t| > 0 && !IsDigit(s[0], b) && !IsDigit(t[0], b)
    requires Digits(m, b) + s == Digits(n, b) + t
    ensures m == n && s == t
  {
    var dm, dn := Digits(m, b), Digits(n, b);
    LeadingDigitsBeforeSeparator(dm, s, b);
    LeadingDigitsBeforeSeparator(dn, t, b);
    assert dm == (dm + s)[..|dm|] && dn == (dn + t)[..|dn|];
    DigitsInjective(m, n, b);
    assert s == (dm + s)[|dm|..] && t == (dn + t)[|dn|..];
  }
}
