/** The string operations the key builders use: decimal numbers, trimming, case, joining. */
module Text {

  const SEPARATOR: char := 31 as char

  function Digit(d: nat): (c: char)
    requires d < 10
    ensures '0' <= c <= '9'
  {
    ('0' as int + d) as char
  }

  function Decimal(n: nat): (s: string)
    ensures s != [] && forall c | c in s :: '0' <= c <= '9'
  {
    if n < 10 then [Digit(n)] else Decimal(n / 10) + [Digit(n % 10)]
  }

  function SignedDecimal(n: int): string {
    if n < 0 then "-" + Decimal(-n) else Decimal(n)
  }

  lemma {:induction false} DecimalLength(n: nat)
    ensures |Decimal(n)| == 1 <==> n < 10
  {
    if n >= 10 {
      DecimalLength(n / 10);
    }
  }

  lemma {:induction false} DecimalInjective(m: nat, n: nat)
    requires Decimal(m) == Decimal(n)
    ensures m == n
  {
    DecimalLength(m);
    DecimalLength(n);
    if m >= 10 {
      var a, b := Decimal(m), Decimal(n);
      assert Decimal(m / 10) == a[..|a| - 1] && Decimal(n / 10) == b[..|b| - 1];
      assert a[|a| - 1] == Digit(m % 10) && b[|b| - 1] == Digit(n % 10);
      DecimalInjective(m / 10, n / 10);
    }
  }

  lemma SignedDecimalInjective(m: int, n: int)
    requires SignedDecimal(m) == SignedDecimal(n)
    ensures m == n
  {
    assert forall k: nat :: Decimal(k)[0] in Decimal(k);
    assert (m < 0) == (n < 0);
    if m < 0 {
      assert SignedDecimal(m)[1..] == Decimal(-m) && SignedDecimal(n)[1..] == Decimal(-n);
      DecimalInjective(-m, -n);
    } else {
      DecimalInjective(m, n);
    }
  }

  /** Cutting at the first occurrence of a character is unambiguous. */
  lemma SplitUnique(a: string, b: string, x: string, y: string, c: char)
    requires c !in a && c !in x
    requires a + [c] + b == x + [c] + y
    ensures a == x && b == y
  {
    var s := a + [c] + b;
    assert s[|a|] == c && s[|x|] == c;
    assert forall i | 0 <= i < |a| :: s[i] == a[i] && a[i] in a;
    assert forall i | 0 <= i < |x| :: s[i] == x[i] && x[i] in x;
    assert |a| == |x|;
    assert a == s[..|a|] && x == s[..|x|];
    assert b == s[|a| + 1..] && y == s[|x| + 1..];
  }

  /** Cutting at the last occurrence of a character is unambiguous. */
  lemma SplitLastUnique(a: string, b: string, x: string, y: string, c: char)
    requires c !in b && c !in y
    requires a + [c] + b == x + [c] + y
    ensures a == x && b == y
  {
    var s := a + [c] + b;
    assert |s| == |a| + 1 + |b| == |x| + 1 + |y|;
    assert s[|a|] == c && s[|x|] == c;
    assert forall i | |a| < i < |s| :: s[i] == b[i - |a| - 1] && b[i - |a| - 1] in b;
    assert forall i | |x| < i < |s| :: s[i] == y[i - |x| - 1] && y[i - |x| - 1] in y;
    assert |a| == |x|;
    assert a == s[..|a|] && x == s[..|x|];
    assert b == s[|a| + 1..] && y == s[|x| + 1..];
  }

  predicate IsSpace(c: char) {
    c == ' ' || (9 as char <= c <= 13 as char) || (28 as char <= c <= 31 as char)
  }

  function LowerChar(c: char): char {
    if 'A' <= c <= 'Z' then (c as int + 32) as char else c
  }

  function Lower(s: string): string {
    if s == "" then "" else [LowerChar(s[0])] + Lower(s[1..])
  }

  function StripLeft(s: string): (r: string)
    ensures |r| <= |s|
  {
    if s != "" && IsSpace(s[0]) then StripLeft(s[1..]) else s
  }

  function StripRight(s: string): string {
    if s != "" && IsSpace(s[|s| - 1]) then StripRight(s[..|s| - 1]) else s
  }

  function Strip(s: string): string {
    StripRight(StripLeft(s))
  }

  predicate IsBlank(s: string) {
    Strip(s) == ""
  }

  /** Every maximal run of whitespace becomes one space. */
  function Collapse(s: string): (r: string)
    ensures forall c | c in r :: c == ' ' || !IsSpace(c)
    decreases |s|
  {
    if s == "" then ""
    else if IsSpace(s[0]) then " " + Collapse(StripLeft(s[1..]))
    else [s[0]] + Collapse(s[1..])
  }

  lemma {:induction false} LowerNoSeparator(s: string)
    requires SEPARATOR !in s
    ensures SEPARATOR !in Lower(s)
  {
    if s != "" {
      assert s == [s[0]] + s[1..];
      LowerNoSeparator(s[1..]);
    }
  }

  lemma {:induction false} StripLeftSubset(s: string)
    ensures forall c | c in StripLeft(s) :: c in s
  {
    if s != "" && IsSpace(s[0]) {
      StripLeftSubset(s[1..]);
    }
  }

  lemma {:induction false} StripRightSubset(s: string)
    ensures forall c | c in StripRight(s) :: c in s
  {
    if s != "" && IsSpace(s[|s| - 1]) {
      StripRightSubset(s[..|s| - 1]);
    }
  }

  lemma StripNoSeparator(s: string)
    requires SEPARATOR !in s
    ensures SEPARATOR !in Strip(s)
  {
    StripLeftSubset(s);
    StripRightSubset(StripLeft(s));
  }

  /** Lexicographic order on strings, as comparison and sorting use it. */
  predicate StringLe(a: string, b: string) {
    a == "" || (b != "" && (a[0] < b[0] || (a[0] == b[0] && StringLe(a[1..], b[1..]))))
  }

  lemma {:induction false} StringLeTotal(a: string, b: string)
    ensures StringLe(a, b) || StringLe(b, a)
  {
    if a != "" && b != "" && a[0] == b[0] {
      StringLeTotal(a[1..], b[1..]);
    }
  }

  lemma {:induction false} StringLeTransitive(a: string, b: string, c: string)
    requires StringLe(a, b) && StringLe(b, c)
    ensures StringLe(a, c)
  {
    if a != "" && a[0] == b[0] && b[0] == c[0] {
      StringLeTransitive(a[1..], b[1..], c[1..]);
    }
  }

  lemma {:induction false} StringLeAntisymmetric(a: string, b: string)
    requires StringLe(a, b) && StringLe(b, a)
    ensures a == b
  {
    if a != "" {
      StringLeAntisymmetric(a[1..], b[1..]);
      assert a == [a[0]] + a[1..] && b == [b[0]] + b[1..];
    }
  }
}
