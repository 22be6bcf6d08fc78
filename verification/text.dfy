/** Character-sequence helpers standing in for the parts of Rust's `str` API the
    program uses: `replace` with a `char` pattern, `contains`, `to_lowercase`,
    the decimal formatting of an unsigned integer, and prefix matching. */
module Text {
  import opened Wrappers

  /** Number of occurrences of `c` in `s`. */
  function Count(s: string, c: char): (n: nat)
    ensures n <= |s|
    ensures n == 0 <==> c !in s
  {
    if |s| == 0 then 0
    else
      assert s == [s[0]] + s[1..];
      (if s[0] == c then 1 else 0) + Count(s[1..], c)
  }

  lemma {:induction false} CountAppend(a: string, b: string, c: char)
    ensures Count(a + b, c) == Count(a, c) + Count(b, c)
  {
    if |a| == 0 {
      assert a + b == b;
    } else {
      assert (a + b)[1..] == a[1..] + b;
      CountAppend(a[1..], b, c);
    }
  }

  /** Every occurrence of `c` in `s` replaced by `rep`, scanning left to right
      (Rust's `str::replace` with a `char` pattern). */
  function Replace(s: string, c: char, rep: string): (r: string)
    ensures c !in s ==> r == s
  {
    if |s| == 0 then []
    else
      assert s == [s[0]] + s[1..];
      (if s[0] == c then rep else [s[0]]) + Replace(s[1..], c, rep)
  }

  /** With a two-character replacement, each occurrence of `c` grows the
      text by one character. */
  lemma {:induction false} ReplaceLength(s: string, c: char, rep: string)
    requires |rep| == 2
    ensures |Replace(s, c, rep)| == |s| + Count(s, c)
  {
    if |s| > 0 {
      ReplaceLength(s[1..], c, rep);
    }
  }

  /** Replacement works piecewise: it commutes with concatenation. */
  lemma {:induction false} ReplaceAppend(a: string, b: string, c: char, rep: string)
    ensures Replace(a + b, c, rep) == Replace(a, c, rep) + Replace(b, c, rep)
  {
    if |a| == 0 {
      assert a + b == b;
    } else {
      assert (a + b)[0] == a[0];
      assert (a + b)[1..] == a[1..] + b;
      ReplaceAppend(a[1..], b, c, rep);
    }
  }

  /** Replacing `c` leaves the number of some other character `d` alone when
      the replacement text does not contain `d`. */
  lemma {:induction false} CountReplaceOther(s: string, c: char, rep: string, d: char)
    requires d != c && d !in rep
    ensures Count(Replace(s, c, rep), d) == Count(s, d)
  {
    if |s| > 0 {
      var head := if s[0] == c then rep else [s[0]];
      assert Replace(s, c, rep) == head + Replace(s[1..], c, rep);
      CountAppend(head, Replace(s[1..], c, rep), d);
      CountReplaceOther(s[1..], c, rep, d);
    }
  }

  /** `needle` occurs in `hay` starting at index `i`. */
  predicate OccursAt(hay: string, needle: string, i: int) {
    0 <= i && i + |needle| <= |hay| && hay[i..i + |needle|] == needle
  }

  /** Substring search (Rust's `str::contains` with a string pattern). */
  predicate Contains(hay: string, needle: string)
    decreases |hay|
  {
    if |needle| > |hay| then false
    else if hay[..|needle|] == needle then true
    else |hay| > 0 && Contains(hay[1..], needle)
  }

  /** The search finds `needle` exactly when it occurs at some index. */
  lemma {:induction false} ContainsIffOccurs(hay: string, needle: string)
    ensures Contains(hay, needle) <==> exists i :: OccursAt(hay, needle, i)
    decreases |hay|
  {
    if |needle| > |hay| {
      forall i ensures !OccursAt(hay, needle, i) { }
    } else if hay[..|needle|] == needle {
      assert OccursAt(hay, needle, 0);
    } else {
      var tail := hay[1..];
      ContainsIffOccurs(tail, needle);
      if Contains(hay, needle) {
        var j :| OccursAt(tail, needle, j);
        assert tail[j..j + |needle|] == hay[j + 1..j + 1 + |needle|];
        assert OccursAt(hay, needle, j + 1);
      }
      if i :| OccursAt(hay, needle, i) {
        assert i != 0;
        assert tail[i - 1..i - 1 + |needle|] == hay[i..i + |needle|];
        assert OccursAt(tail, needle, i - 1);
      }
    }
  }

  /** ASCII lower-casing of one character. */
  function LowerChar(c: char): char {
    if 'A' <= c <= 'Z' then (c as int + 32) as char else c
  }

  /** ASCII lower-casing of a string, character by character. */
  function Lower(s: string): (r: string)
    ensures |r| == |s|
    ensures forall i :: 0 <= i < |s| ==> r[i] == LowerChar(s[i])
  {
    seq(|s|, i requires 0 <= i < |s| => LowerChar(s[i]))
  }

  predicate IsDigit(c: char) {
    '0' <= c <= '9'
  }

  predicate AllDigits(s: string) {
    forall i :: 0 <= i < |s| ==> IsDigit(s[i])
  }

  function DigitChar(d: nat): (c: char)
    requires d < 10
    ensures IsDigit(c)
  {
    ('0' as int + d) as char
  }

  function DigitValue(c: char): (d: nat)
    requires IsDigit(c)
    ensures d < 10
  {
    c as int - '0' as int
  }

  /** Decimal text of `n` (the `{}` formatting of an unsigned integer). */
  function Decimal(n: nat): (r: string)
    ensures 1 <= |r|
    ensures AllDigits(r)
    ensures r[0] == '0' ==> n == 0
    decreases n
  {
    if n < 10 then [DigitChar(n)] else Decimal(n / 10) + [DigitChar(n % 10)]
  }

  /** The number a string of decimal digits denotes. */
  function DigitsValue(s: string): nat
    requires AllDigits(s)
    decreases |s|
  {
    if |s| == 0 then 0 else DigitsValue(s[..|s| - 1]) * 10 + DigitValue(s[|s| - 1])
  }

  lemma {:induction false} DecimalValue(n: nat)
    ensures DigitsValue(Decimal(n)) == n
    decreases n
  {
    if n >= 10 {
      var d := Decimal(n);
      assert d == Decimal(n / 10) + [DigitChar(n % 10)];
      assert d[..|d| - 1] == Decimal(n / 10);
      DecimalValue(n / 10);
    }
  }

  /** Length of the run of decimal digits at the front of `t`. */
  function LeadingDigits(t: string): (k: nat)
    ensures k <= |t|
    ensures AllDigits(t[..k])
    ensures k < |t| ==> !IsDigit(t[k])
  {
    if |t| == 0 || !IsDigit(t[0]) then 0
    else
      var k := 1 + LeadingDigits(t[1..]);
      assert t[..k] == [t[0]] + t[1..][..k - 1];
      k
  }

  lemma {:induction false} LeadingDigitsAppend(ds: string, rest: string)
    requires AllDigits(ds)
    requires |rest| == 0 || !IsDigit(rest[0])
    ensures LeadingDigits(ds + rest) == |ds|
  {
    if |ds| > 0 {
      assert (ds + rest)[0] == ds[0];
      assert (ds + rest)[1..] == ds[1..] + rest;
      LeadingDigitsAppend(ds[1..], rest);
    } else {
      assert ds + rest == rest;
    }
  }

  /** Reads the unsigned decimal number at the front of `t`: its value and the
      text after it; None when `t` does not start with a digit. */
  function ReadNat(t: string): Option<(nat, string)> {
    var k := LeadingDigits(t);
    if k == 0 then None else Some((DigitsValue(t[..k]), t[k..]))
  }

  /** Reading back the decimal text of `n` yields `n` and stops where the
      digits stop. */
  lemma ReadNatDecimal(n: nat, rest: string)
    requires |rest| == 0 || !IsDigit(rest[0])
    ensures ReadNat(Decimal(n) + rest) == Some((n, rest))
  {
    var ds := Decimal(n);
    LeadingDigitsAppend(ds, rest);
    assert (ds + rest)[..|ds|] == ds;
    assert (ds + rest)[|ds|..] == rest;
    DecimalValue(n);
  }

  /** The text after prefix `p`, if `t` starts with `p`. */
  function StripPrefix(t: string, p: string): (r: Option<string>)
    ensures r.Some? <==> |p| <= |t| && t[..|p|] == p
    ensures r.Some? ==> t == p + r.value
  {
    if |p| <= |t| && t[..|p|] == p then Some(t[|p|..]) else None
  }

  lemma StripPrefixAppend(p: string, x: string)
    ensures StripPrefix(p + x, p) == Some(x)
  {
    assert (p + x)[..|p|] == p;
    assert (p + x)[|p|..] == x;
  }
}
