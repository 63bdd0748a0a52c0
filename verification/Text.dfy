// The few string operations the service relies on.
module Text {

  // White space as Go's unicode.IsSpace defines it.
  predicate IsSpace(c: char) {
    c in {'\t', '\n', '\U{B}', '\U{C}', '\r', ' ', '\U{85}', '\U{A0}', '\U{1680}', '\U{2028}', '\U{2029}', '\U{202F}',
          '\U{205F}', '\U{3000}'}
    || '\U{2000}' <= c <= '\U{200A}'
  }

  function TrimLeft(s: string): string {
    if s != [] && IsSpace(s[0]) then TrimLeft(s[1..]) else s
  }

  function TrimRight(s: string): string {
    if s != [] && IsSpace(s[|s|-1]) then TrimRight(s[..|s|-1]) else s
  }

  function TrimSpace(s: string): string {
    TrimRight(TrimLeft(s))
  }

  predicate Blank(s: string) {
    forall i | 0 <= i < |s| :: IsSpace(s[i])
  }

  lemma {:induction false} TrimRightKeeps(s: string)
    ensures TrimRight(s) == [] <==> Blank(s)
    ensures TrimRight(s) <= s
    ensures s != [] && !IsSpace(s[|s|-1]) ==> TrimRight(s) == s
  {
    if s == [] || !IsSpace(s[|s|-1]) {
    } else {
      TrimRightKeeps(s[..|s|-1]);
      assert forall i | 0 <= i < |s|-1 :: s[..|s|-1][i] == s[i];
    }
  }

  // Trimming leaves nothing exactly when the text is blank.
  lemma {:induction false} TrimSpaceBlank(s: string)
    ensures TrimSpace(s) == [] <==> Blank(s)
  {
    if s != [] && IsSpace(s[0]) {
      TrimSpaceBlank(s[1..]);
      assert forall i | 1 <= i < |s| :: s[1..][i-1] == s[i];
    } else {
      TrimRightKeeps(s);
    }
  }

  lemma {:induction false} TrimRightIdempotent(s: string)
    ensures TrimRight(TrimRight(s)) == TrimRight(s)
  {
    if s == [] || !IsSpace(s[|s|-1]) {
    } else {
      TrimRightIdempotent(s[..|s|-1]);
    }
  }

  lemma {:induction false} TrimLeftKeeps(s: string)
    ensures TrimLeft(s) != [] ==> !IsSpace(TrimLeft(s)[0])
  {
    if s == [] || !IsSpace(s[0]) {
    } else {
      TrimLeftKeeps(s[1..]);
    }
  }

  lemma TrimSpaceIdempotent(s: string)
    ensures TrimSpace(TrimSpace(s)) == TrimSpace(s)
  {
    var l := TrimLeft(s);
    TrimLeftKeeps(s);
    TrimRightKeeps(l);
    var t := TrimRight(l);
    if t != [] {
      assert t[0] == l[0];
    }
    TrimRightIdempotent(l);
  }

  // What trimming leaves is a part of the text, with nothing but white space before and after it and
  // none at its edges.
  lemma TrimSpaceIs(s: string) returns (i: nat, j: nat)
    ensures i <= j <= |s| && TrimSpace(s) == s[i..j] && Blank(s[..i]) && Blank(s[j..])
    ensures i < j ==> !IsSpace(s[i]) && !IsSpace(s[j-1])
  {
    i := LeftIs(s);
    var n := RightIs(s[i..]);
    j := i + n;
    assert s[i..][..n] == s[i..j] && s[i..][n..] == s[j..];
  }

  lemma {:induction false} LeftIs(s: string) returns (i: nat)
    ensures i <= |s| && TrimLeft(s) == s[i..] && Blank(s[..i]) && (i < |s| ==> !IsSpace(s[i]))
  {
    if s == [] || !IsSpace(s[0]) {
      i := 0;
    } else {
      var k := LeftIs(s[1..]);
      i := k + 1;
      assert s[..i] == [s[0]] + s[1..][..k];
    }
  }

  lemma {:induction false} RightIs(s: string) returns (j: nat)
    ensures j <= |s| && TrimRight(s) == s[..j] && Blank(s[j..]) && (j > 0 ==> !IsSpace(s[j-1]))
  {
    var n := |s| - 1;
    if s == [] || !IsSpace(s[n]) {
      j := |s|;
    } else {
      j := RightIs(s[..n]);
      assert s[j..] == s[..n][j..] + [s[n]];
    }
  }

  // Text that starts and ends with something else than white space is left alone.
  lemma EdgesStay(s: string)
    requires s != "" && !IsSpace(s[0]) && !IsSpace(s[|s|-1])
    ensures TrimSpace(s) == s
  {
  }

  // A trimmed text has no white space at its edges.
  lemma TrimmedEdges(s: string)
    requires TrimSpace(s) != ""
    ensures !IsSpace(TrimSpace(s)[0])
  {
    TrimLeftKeeps(s);
    TrimRightKeeps(TrimLeft(s));
  }

  function LowerChar(c: char): char {
    if 'A' <= c <= 'Z' then ((c as int) + 32) as char else c
  }

  function UpperChar(c: char): char {
    if 'a' <= c <= 'z' then ((c as int) - 32) as char else c
  }

  function Lower(s: string): string {
    seq(|s|, i requires 0 <= i < |s| => LowerChar(s[i]))
  }

  function Upper(s: string): string {
    seq(|s|, i requires 0 <= i < |s| => UpperChar(s[i]))
  }

  predicate Contains(s: string, t: string) {
    |t| <= |s| && (s[..|t|] == t || (s != [] && Contains(s[1..], t)))
  }

  // ----- Decimal numerals -------------------------------------------------------------

  predicate IsDigit(c: char) {
    '0' <= c <= '9'
  }

  function Digit(d: nat): char
    requires d < 10
  {
    ('0' as int + d) as char
  }

  function Decimal(n: nat): (s: string)
    ensures s != [] && forall i | 0 <= i < |s| :: IsDigit(s[i])
  {
    if n < 10 then [Digit(n)] else Decimal(n / 10) + [Digit(n % 10)]
  }

  lemma {:induction false} DecimalLong(n: nat)
    ensures |Decimal(n)| == 1 <==> n < 10
  {
  }

  // The number a numeral stands for.
  function ValueOf(s: string): nat
    requires forall i | 0 <= i < |s| :: IsDigit(s[i])
  {
    if s == [] then 0
    else
      assert IsDigit(s[|s|-1]);
      10 * ValueOf(s[..|s|-1]) + (s[|s|-1] as int - '0' as int)
  }

  lemma {:induction false} DecimalValue(n: nat)
    ensures ValueOf(Decimal(n)) == n
    ensures n > 0 ==> Decimal(n)[0] != '0'
  {
    var s := Decimal(n);
    if n < 10 {
      assert s[..0] == [];
    } else {
      DecimalValue(n / 10);
      assert s[..|s|-1] == Decimal(n / 10) && s[|s|-1] == Digit(n % 10);
    }
  }

  // Different numbers have different numerals.
  lemma {:induction false} DecimalInjective(m: nat, n: nat)
    requires Decimal(m) == Decimal(n)
    ensures m == n
    decreases m + n
  {
    DecimalLong(m);
    DecimalLong(n);
    var s, t := Decimal(m), Decimal(n);
    if m < 10 {
      assert Digit(m) == s[0] == t[0] == Digit(n);
    } else {
      assert s[|s|-1] == Digit(m % 10) && t[|t|-1] == Digit(n % 10);
      assert s[..|s|-1] == Decimal(m / 10) && t[..|t|-1] == Decimal(n / 10);
      DecimalInjective(m / 10, n / 10);
    }
  }

  // Appending a separator that ends in a non-digit and a numeral can be undone.
  lemma NumeralSuffix(a: string, b: string, sep: string, m: nat, n: nat)
    requires sep != [] && !IsDigit(sep[|sep|-1])
    requires a + sep + Decimal(m) == b + sep + Decimal(n)
    ensures a == b && m == n
  {
    var s := a + sep + Decimal(m);
    var x, y := Decimal(m), Decimal(n);
    assert s[|s| - |x| - 1] == sep[|sep|-1] == s[|s| - |y| - 1];
    assert forall i | 0 <= i < |x| :: s[|s| - |x| + i] == x[i];
    assert forall i | 0 <= i < |y| :: s[|s| - |y| + i] == y[i];
    assert |x| == |y|;
    assert x == s[|s| - |x|..] == y;
    DecimalInjective(m, n);
    assert a == s[..|s| - |x| - |sep|] == b;
  }
}
