/**
 Decimal text of integers, as Java prints int, long and the unsigned reading of an int, with a parser that accepts
 exactly what is printed.
 */
module Decimal {
  import opened Options

  function Digit(d: nat): char
    requires d < 10
  {
    ('0' as int + d) as char
  }

  predicate IsDigit(c: char) {
    '0' <= c <= '9'
  }

  predicate AllDigits(s: string) {
    forall i :: 0 <= i < |s| ==> IsDigit(s[i])
  }

  function Print(n: nat): string {
    if n < 10 then [Digit(n)] else Print(n / 10) + [Digit(n % 10)]
  }

  function Value(s: string): nat
    requires AllDigits(s)
  {
    if s == [] then 0
    else Value(s[..|s| - 1]) * 10 + (s[|s| - 1] as int - '0' as int)
  }

  /** Digits, at least one, and no needless leading zero. */
  predicate Canonical(s: string) {
    s != [] && AllDigits(s) && (|s| == 1 || s[0] != '0')
  }

  function Parse(s: string): Option<nat> {
    if Canonical(s) then Some(Value(s)) else None
  }

  lemma {:induction false} PrintIsCanonical(n: nat)
    ensures Canonical(Print(n)) && (n > 0 ==> Print(n)[0] != '0')
    ensures Value(Print(n)) == n
  {
    if n < 10 {
      assert Print(n)[..0] == [];
    } else {
      PrintIsCanonical(n / 10);
      assert Print(n)[..|Print(n)| - 1] == Print(n / 10);
    }
  }

  lemma {:induction false} CanonicalIsPrinted(s: string)
    requires Canonical(s)
    ensures Print(Value(s)) == s && (s[0] != '0' ==> Value(s) > 0)
  {
    var n := |s| - 1;
    if n == 0 {
      assert s == [s[0]] && s[..0] == [];
      assert Value(s) == s[0] as int - '0' as int;
    } else {
      CanonicalIsPrinted(s[..n]);
      assert s == s[..n] + [s[n]];
    }
  }

  lemma PrintStartsWithDigit(n: nat)
    ensures Print(n) != [] && IsDigit(Print(n)[0])
  {
    PrintIsCanonical(n);
  }

  /** Parse and Print are inverse to each other: a text parses to n exactly when it is the print of n. */
  lemma ParseIsInverse(s: string, n: nat)
    ensures Parse(s) == Some(n) <==> s == Print(n)
  {
    PrintIsCanonical(n);
    if Canonical(s) {
      CanonicalIsPrinted(s);
    }
  }

  function PrintInt(v: int): string {
    if v < 0 then "-" + Print(-v) else Print(v)
  }

  function ParseInt(s: string): Option<int> {
    if s != [] && s[0] == '-' then
      match Parse(s[1..])
      case None => None
      case Some(n) => var v: int := n; if v == 0 then None else Some(-v)
    else
      match Parse(s)
      case None => None
      case Some(n) => var v: int := n; Some(v)
  }

  lemma ParseNegativeIsInverse(s: string, v: int)
    requires v < 0
    ensures ParseInt(s) == Some(v) <==> s == "-" + Print(-v)
  {
    if s != [] && s[0] == '-' {
      assert s == "-" + s[1..];
      ParseIsInverse(s[1..], -v);
    }
  }

  lemma ParsePositiveIsInverse(s: string, n: nat)
    ensures ParseInt(s) == Some(n) <==> s == Print(n)
  {
    PrintStartsWithDigit(n);
    if s == [] || s[0] != '-' {
      ParseIsInverse(s, n);
    }
  }

  lemma ParseIntIsInverse(s: string, v: int)
    ensures ParseInt(s) == Some(v) <==> s == PrintInt(v)
  {
    if v < 0 {
      ParseNegativeIsInverse(s, v);
    } else {
      ParsePositiveIsInverse(s, v);
    }
  }
}
