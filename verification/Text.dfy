/** The string work the models share: decimal numbers, file extensions and the
    case folding of names. */
module Text {

  function Digit(n: nat): (c: char)
    requires n < 10
    ensures '0' <= c <= '9'
  {
    '0' + n as char
  }

  /** How %d prints a natural number. */
  function Decimal(n: nat): (s: string)
    ensures s != [] && forall c :: c in s ==> '0' <= c <= '9'
  {
    if n < 10 then [Digit(n)] else Decimal(n / 10) + [Digit(n % 10)]
  }

  /** How %d prints an integer. */
  function Number(n: int): (s: string)
    ensures s != [] && (s[0] == '-' <==> n < 0)
    ensures forall c :: c in s ==> '0' <= c <= '9' || c == '-'
  {
    if n < 0 then ['-'] + Decimal(-n) else assert Decimal(n)[0] in Decimal(n); Decimal(n)
  }

  lemma {:induction false} DecimalInjective(a: nat, b: nat)
    requires Decimal(a) == Decimal(b)
    ensures a == b
    decreases a
  {
    var s, t := Decimal(a), Decimal(b);
    assert s[|s| - 1] == t[|t| - 1];
    if a >= 10 && b >= 10 {
      assert Decimal(a / 10) == s[..|s| - 1] == t[..|t| - 1] == Decimal(b / 10);
      DecimalInjective(a / 10, b / 10);
    }
  }

  lemma NumberInjective(a: int, b: int)
    requires Number(a) == Number(b)
    ensures a == b
  {
    assert Number(a)[0] == Number(b)[0];
    if a < 0 && b < 0 {
      assert Decimal(-a) == Number(a)[1..] == Number(b)[1..] == Decimal(-b);
      DecimalInjective(-a, -b);
    } else if a >= 0 && b >= 0 {
      DecimalInjective(a, b);
    }
  }

  /** Where the extension of a file name starts: its last dot, or its end. */
  function LastDot(s: string): (k: nat)
    ensures k <= |s|
    ensures k < |s| ==> s[k] == '.'
    ensures forall j :: k < j < |s| ==> s[j] != '.'
    ensures k == |s| ==> '.' !in s
  {
    if s == [] then 0
    else if s[|s| - 1] == '.' then |s| - 1
    else
      var k := LastDot(s[..|s| - 1]);
      if k == |s| - 1 then |s| else k
  }

  function Ext(s: string): string {
    s[LastDot(s)..]
  }

  function TrimExt(s: string): string {
    s[..LastDot(s)]
  }

  /** An extension is a dot followed by characters that are not dots. */
  predicate IsExt(e: string) {
    e != [] && e[0] == '.' && forall k :: 0 < k < |e| ==> e[k] != '.'
  }

  lemma LastDotIs(s: string, k: nat)
    requires k < |s| && s[k] == '.' && forall j :: k < j < |s| ==> s[j] != '.'
    ensures LastDot(s) == k
  {
  }

  lemma ExtOfJoin(stem: string, e: string)
    requires IsExt(e)
    ensures Ext(stem + e) == e && TrimExt(stem + e) == stem
  {
    forall j | |stem| < j < |stem + e| ensures (stem + e)[j] != '.' {
      assert (stem + e)[j] == e[j - |stem|];
    }
    LastDotIs(stem + e, |stem|);
    assert (stem + e)[|stem|..] == e && (stem + e)[..|stem|] == stem;
  }

  /** Case folding of one character; only the letters A to Z fold. */
  function Lower(c: char): char {
    if 'A' <= c <= 'Z' then c + 32 as char else c
  }

  function ToLower(s: string): (r: string)
    ensures |r| == |s|
    ensures forall k :: 0 <= k < |s| ==> r[k] == Lower(s[k])
  {
    seq(|s|, k requires 0 <= k < |s| => Lower(s[k]))
  }

}
