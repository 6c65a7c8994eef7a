/** The few JavaScript built-ins the site's own code relies on, stated over
    Dafny strings (`seq<char>`) and unbounded integers. */
module Js {

  /** `null` / `undefined` versus a present value. */
  datatype Option<+T> = None | Some(value: T)

  /** `String.prototype.startsWith`. */
  predicate StartsWith(s: string, prefix: string)
  {
    |prefix| <= |s| && s[..|prefix|] == prefix
  }

  /** `s.replace(c, '')` with a one-character string pattern: only the first
      occurrence of `c` is removed, wherever it stands, and a string without
      `c` comes back unchanged. */
  function ReplaceFirst(s: string, c: char): (r: string)
    ensures s != [] && s[0] == c ==> r == s[1..]
    ensures c !in s ==> r == s
  {
    if s == [] then []
    else if s[0] == c then s[1..]
    else [s[0]] + ReplaceFirst(s[1..], c)
  }

  /** When `c` first occurs at index `i`, exactly that character is dropped. */
  lemma {:induction false} ReplaceFirstAt(s: string, c: char, i: nat)
    requires i < |s| && s[i] == c && c !in s[..i]
    ensures ReplaceFirst(s, c) == s[..i] + s[i + 1..]
  {
    if i > 0 {
      assert s[0] == s[..i][0];
      assert c !in s[1..][..i - 1] by { assert s[1..][..i - 1] == s[..i][1..]; }
      ReplaceFirstAt(s[1..], c, i - 1);
      assert s[..i] == [s[0]] + s[1..][..i - 1];
    }
  }

  predicate IsDigit(ch: char)
  {
    '0' <= ch <= '9'
  }

  predicate IsDecimal(s: string)
  {
    |s| > 0 && forall i :: 0 <= i < |s| ==> IsDigit(s[i])
  }

  function DigitChar(d: nat): (ch: char)
    requires d < 10
    ensures IsDigit(ch)
  {
    ('0' as int + d) as char
  }

  function DigitValue(ch: char): (d: nat)
    requires IsDigit(ch)
    ensures d < 10
  {
    ch as int - '0' as int
  }

  /** The template literal `${n}` of a non-negative integer: its decimal
      digits, most significant first, with no leading zero. */
  function Decimal(n: nat): (s: string)
    ensures IsDecimal(s)
    ensures s[0] == '0' ==> n == 0 && s == "0"
  {
    if n < 10 then [DigitChar(n)] else Decimal(n / 10) + [DigitChar(n % 10)]
  }

  /** Reads a string of decimal digits back as a number. */
  function DecimalValue(s: string): nat
    requires forall i :: 0 <= i < |s| ==> IsDigit(s[i])
  {
    if s == [] then 0 else DecimalValue(s[..|s| - 1]) * 10 + DigitValue(s[|s| - 1])
  }

  /** The digits of `${n}` denote `n` again. */
  lemma {:induction false} DecimalRoundTrip(n: nat)
    ensures DecimalValue(Decimal(n)) == n
  {
    var s := Decimal(n);
    if n >= 10 {
      DecimalRoundTrip(n / 10);
      assert s[..|s| - 1] == Decimal(n / 10);
    }
  }

  /** Distinct numbers print as distinct strings. */
  lemma DecimalInjective(m: nat, n: nat)
    ensures Decimal(m) == Decimal(n) ==> m == n
  {
    DecimalRoundTrip(m);
    DecimalRoundTrip(n);
  }
}
