/** Strings as the pages use them: decimal rendering of numbers, the whitespace
    class `\s` of ECMAScript regular expressions, ASCII case mapping, and
    lexicographic order by code unit. */
module Text {

  predicate IsDigit(c: char) {
    '0' <= c <= '9'
  }

  function DigitChar(d: nat): (c: char)
    requires d < 10
    ensures IsDigit(c)
    ensures c as int == '0' as int + d
  {
    ('0' as int + d) as char
  }

  /** `String(n)` for a non-negative integer: its decimal digits, no leading zeros. */
  function NatToString(n: nat): (s: string)
    ensures |s| >= 1
    ensures forall i :: 0 <= i < |s| ==> IsDigit(s[i])
    ensures (|s| == 1) == (n < 10)
  {
    if n < 10 then [DigitChar(n)] else NatToString(n / 10) + [DigitChar(n % 10)]
  }

  /** Four-digit numbers print as four characters. */
  lemma {:induction false} NatToStringFourDigits(n: nat)
    requires 1000 <= n <= 9999
    ensures |NatToString(n)| == 4
  {
    assert NatToString(n) == NatToString(n / 10) + [DigitChar(n % 10)];
    assert NatToString(n / 10) == NatToString(n / 100) + [DigitChar(n / 10 % 10)];
    assert NatToString(n / 100) == NatToString(n / 1000) + [DigitChar(n / 100 % 10)];
  }

  /** The characters `\s` matches in an ECMAScript regular expression: the
      WhiteSpace and LineTerminator code points. */
  predicate IsJsSpace(c: char) {
    var u := c as int;
    || (0x09 <= u <= 0x0D)                     // tab, line feed, vertical tab, form feed, carriage return
    || u == 0x20 || u == 0xA0 || u == 0x1680    // space, no-break space, ogham space mark
    || (0x2000 <= u <= 0x200A)                 // en quad .. hair space
    || u == 0x2028 || u == 0x2029              // line and paragraph separators
    || u == 0x202F || u == 0x205F || u == 0x3000
    || u == 0xFEFF                             // zero width no-break space
  }

  predicate IsUpperAscii(c: char) {
    'A' <= c <= 'Z'
  }

  /** Lower-casing of one character, for the ASCII letters. */
  function LowerChar(c: char): (r: char)
    ensures !IsUpperAscii(r)
    ensures IsJsSpace(r) == IsJsSpace(c)
    ensures !IsUpperAscii(c) ==> r == c
  {
    if IsUpperAscii(c) then (c as int + 32) as char else c
  }

  /** Strict lexicographic order by code unit: a proper prefix comes first. */
  predicate StrLess(a: string, b: string) {
    if a == [] then b != []
    else b != [] && (a[0] < b[0] || (a[0] == b[0] && StrLess(a[1..], b[1..])))
  }

  lemma {:induction false} StrLessIrreflexive(a: string)
    ensures !StrLess(a, a)
  {
    if a != [] {
      StrLessIrreflexive(a[1..]);
    }
  }

  lemma {:induction false} StrLessTransitive(a: string, b: string, c: string)
    requires StrLess(a, b) && StrLess(b, c)
    ensures StrLess(a, c)
  {
    if a != [] && a[0] == b[0] && b[0] == c[0] {
      StrLessTransitive(a[1..], b[1..], c[1..]);
    }
  }

  /** Two different strings are always ordered one way or the other. */
  lemma {:induction false} StrLessTotal(a: string, b: string)
    requires a != b
    ensures StrLess(a, b) || StrLess(b, a)
  {
    if a != [] && b != [] && a[0] == b[0] {
      assert a == [a[0]] + a[1..] && b == [b[0]] + b[1..];
      StrLessTotal(a[1..], b[1..]);
    }
  }

  /** Comparing two strings that start with prefixes of the same length
      compares the prefixes first, then what follows. */
  lemma {:induction false} StrLessConcat(p: string, s: string, q: string, t: string)
    requires |p| == |q|
    ensures StrLess(p + s, q + t) <==> StrLess(p, q) || (p == q && StrLess(s, t))
  {
    if p == [] {
      assert p + s == s && q + t == t;
    } else {
      assert (p + s)[1..] == p[1..] + s;
      assert (q + t)[1..] == q[1..] + t;
      StrLessConcat(p[1..], s, q[1..], t);
      if p[0] == q[0] && p[1..] == q[1..] {
        assert p == q by { assert p == [p[0]] + p[1..] && q == [q[0]] + q[1..]; }
      }
    }
  }

  /** Numbers printed with the same number of digits compare as strings the way
      they compare as numbers. */
  lemma {:induction false} DecimalOrder(a: nat, b: nat)
    requires |NatToString(a)| == |NatToString(b)|
    ensures StrLess(NatToString(a), NatToString(b)) <==> a < b
    decreases a + b
  {
    var da, db := DigitChar(a % 10), DigitChar(b % 10);
    assert StrLess([da], [db]) <==> a % 10 < b % 10 by {
      assert [da][1..] == [] && [db][1..] == [];
    }
    if a < 10 {
      assert NatToString(a) == [da] && NatToString(b) == [db];
    } else {
      var pa, pb := NatToString(a / 10), NatToString(b / 10);
      assert NatToString(a) == pa + [da] && NatToString(b) == pb + [db];
      StrLessConcat(pa, [da], pb, [db]);
      DecimalOrder(a / 10, b / 10);
      DecimalOrder(b / 10, a / 10);
      StrLessIrreflexive(pa);
    }
  }
}
