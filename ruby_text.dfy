/** The Ruby string primitives the downloader relies on: `start_with?`,
    `end_with?`, `sub` with a literal pattern, `String#to_i` and the `'%02d'`
    format. Strings are sequences of Unicode scalar values, as Ruby's UTF-8
    strings are sequences of characters. */
module RubyText {

  /** `s.start_with?(p)` */
  predicate StartsWith(s: string, p: string) {
    |p| <= |s| && s[..|p|] == p
  }

  /** `s.end_with?(p)` */
  predicate EndsWith(s: string, p: string) {
    |p| <= |s| && s[|s| - |p|..] == p
  }

  lemma StartsWithPrefix(p: string, x: string)
    ensures StartsWith(p + x, p) && (p + x)[|p|..] == x
  {
    assert (p + x)[..|p|] == p;
  }

  lemma EndsWithSuffix(x: string, p: string)
    ensures EndsWith(x + p, p) && (x + p)[..|x|] == x
  {
    assert (x + p)[|x + p| - |p|..] == p;
  }

  // ---------------------------------------------------------------------
  // String#sub(pat, '') with a literal pattern

  /** `pat` occurs in `s` starting at index `i`. */
  predicate OccursAt(s: string, pat: string, i: nat) {
    i + |pat| <= |s| && s[i..i + |pat|] == pat
  }

  /** `s.sub(pat, '')`: the leftmost occurrence of `pat` is removed; a string
      without one is returned unchanged. */
  function RemoveFirst(s: string, pat: string): (r: string)
    ensures |r| <= |s|
    decreases |s|
  {
    if StartsWith(s, pat) then s[|pat|..]
    else if s == [] then s
    else [s[0]] + RemoveFirst(s[1..], pat)
  }

  /** Shifting a search one character to the right. */
  lemma OccursAtTail(s: string, pat: string, j: nat)
    requires s != []
    ensures OccursAt(s[1..], pat, j) <==> OccursAt(s, pat, j + 1)
  {
    if j + 1 + |pat| <= |s| {
      assert s[1..][j..j + |pat|] == s[j + 1..j + 1 + |pat|];
    }
  }

  /** Without an occurrence, `sub` changes nothing. */
  lemma {:induction false} RemoveFirstAbsent(s: string, pat: string)
    requires forall i: nat :: i <= |s| ==> !OccursAt(s, pat, i)
    ensures RemoveFirst(s, pat) == s
    decreases |s|
  {
    assert !OccursAt(s, pat, 0);
    if |pat| <= |s| {
      assert s[..|pat|] == s[0..|pat|];
    }
    if s != [] {
      forall j: nat | j <= |s[1..]|
        ensures !OccursAt(s[1..], pat, j)
      {
        OccursAtTail(s, pat, j);
      }
      RemoveFirstAbsent(s[1..], pat);
      assert [s[0]] + s[1..] == s;
    }
  }

  /** With a leftmost occurrence at `i`, `sub` cuts out exactly that occurrence. */
  lemma {:induction false} RemoveFirstLeftmost(s: string, pat: string, i: nat)
    requires OccursAt(s, pat, i)
    requires forall j: nat :: j < i ==> !OccursAt(s, pat, j)
    ensures RemoveFirst(s, pat) == s[..i] + s[i + |pat|..]
    decreases i
  {
    if i == 0 {
      assert s[..|pat|] == s[0..|pat|];
      assert s[..0] == [];
    } else {
      assert !OccursAt(s, pat, 0);
      if |pat| <= |s| {
        assert s[..|pat|] == s[0..|pat|];
      }
      OccursAtTail(s, pat, i - 1);
      forall j: nat | j < i - 1
        ensures !OccursAt(s[1..], pat, j)
      {
        OccursAtTail(s, pat, j);
      }
      RemoveFirstLeftmost(s[1..], pat, i - 1);
      assert [s[0]] + s[1..][..i - 1] == s[..i];
      assert s[1..][i - 1 + |pat|..] == s[i + |pat|..];
    }
  }

  // ---------------------------------------------------------------------
  // String#to_i (base 10)

  /** The characters of C's `isspace`, which `to_i` skips before a number;
      they are also exactly what Ruby's regex `\s` matches. */
  predicate IsAsciiSpace(c: char) {
    c == ' ' || '\t' <= c <= '\r'
  }

  predicate IsDigit(c: char) {
    '0' <= c <= '9'
  }

  predicate AllDigits(d: string) {
    forall i :: 0 <= i < |d| ==> IsDigit(d[i])
  }

  function DigitValue(c: char): nat
    requires IsDigit(c)
  {
    c as int - '0' as int
  }

  /** The value of a string of decimal digits, read left to right. */
  function DecimalValue(d: string): nat
    requires AllDigits(d)
  {
    if d == [] then 0 else 10 * DecimalValue(d[..|d| - 1]) + DigitValue(d[|d| - 1])
  }

  /** `s` with its leading `isspace` characters removed. */
  function SkipSpaces(s: string): (r: string)
    ensures |r| <= |s|
    ensures r == [] || !IsAsciiSpace(r[0])
  {
    if s != [] && IsAsciiSpace(s[0]) then SkipSpaces(s[1..]) else s
  }

  /** The leading digits `to_i` reads, with the single underscores allowed
      between two digits dropped; a second underscore or an underscore not
      followed by a digit ends the number. */
  function DigitRun(s: string): (d: string)
    ensures AllDigits(d) && |d| <= |s|
    ensures d != [] <==> (s != [] && IsDigit(s[0]))
  {
    if s == [] || !IsDigit(s[0]) then []
    else if |s| >= 3 && s[1] == '_' && IsDigit(s[2]) then [s[0]] + DigitRun(s[2..])
    else [s[0]] + DigitRun(s[1..])
  }

  /** The unsigned part: base 10 accepts an optional `0d`/`0D` prefix before
      the digits. */
  function Magnitude(s: string): nat {
    var t := if |s| >= 2 && s[0] == '0' && (s[1] == 'd' || s[1] == 'D') then s[2..] else s;
    DecimalValue(DigitRun(t))
  }

  /** Ruby's `String#to_i`: leading spaces, an optional sign, then as many
      digits as parse; 0 when nothing does. It never fails. */
  function ToI(s: string): int {
    var t := SkipSpaces(s);
    if t != [] && t[0] == '-' then -(Magnitude(t[1..]) as int)
    else if t != [] && t[0] == '+' then Magnitude(t[1..])
    else Magnitude(t)
  }

  /** A string that does not start with a space, a sign or a digit reads as 0. */
  lemma ToINonNumeric(s: string)
    requires s == [] || !(IsAsciiSpace(s[0]) || IsDigit(s[0]) || s[0] == '+' || s[0] == '-')
    ensures ToI(s) == 0
  {
    assert SkipSpaces(s) == s;
    assert DigitRun(s) == [];
    assert Magnitude(s) == 0;
  }

  // ---------------------------------------------------------------------
  // Decimal formatting: '%d' and '%02d'

  function DigitChar(d: nat): (c: char)
    requires d < 10
    ensures IsDigit(c) && DigitValue(c) == d
  {
    ('0' as int + d) as char
  }

  /** The decimal representation of `n`, without leading zeros. */
  function Decimal(n: nat): (r: string)
    ensures r != [] && AllDigits(r)
    ensures r[0] == '0' ==> n == 0
    ensures n < 10 <==> |r| == 1
  {
    if n < 10 then [DigitChar(n)] else Decimal(n / 10) + [DigitChar(n % 10)]
  }

  /** `'%02d' % n` for a non-negative `n`: zero-padded to at least two digits. */
  function Pad2(n: nat): (r: string)
    ensures AllDigits(r) && |r| >= 2
    ensures n < 100 <==> |r| == 2
    ensures r[0] == '0' <==> n < 10
  {
    if n < 10 then "0" + Decimal(n) else Decimal(n)
  }

  lemma {:induction false} DecimalRoundTrip(n: nat)
    ensures DecimalValue(Decimal(n)) == n
  {
    if n >= 10 {
      var d := Decimal(n);
      assert d[..|d| - 1] == Decimal(n / 10);
      DecimalRoundTrip(n / 10);
      if n < 100 {
        assert |Decimal(n / 10)| == 1;
      }
    }
  }

  /** A leading zero does not change a digit string's value. */
  lemma {:induction false} LeadingZero(d: string)
    requires AllDigits(d)
    ensures AllDigits("0" + d) && DecimalValue("0" + d) == DecimalValue(d)
    decreases |d|
  {
    var z := "0" + d;
    assert AllDigits(z) by {
      forall i | 0 <= i < |z| ensures IsDigit(z[i]) {
        if i > 0 { assert z[i] == d[i - 1]; }
      }
    }
    if d != [] {
      var init := d[..|d| - 1];
      assert z[..|z| - 1] == "0" + init;
      LeadingZero(init);
    }
  }

  /** The digits `to_i` reads from `d + rest` are all of `d` when `rest`
      does not continue the number. */
  lemma {:induction false} DigitRunStops(d: string, rest: string)
    requires d != [] && AllDigits(d)
    requires rest == [] || !(IsDigit(rest[0]) || rest[0] == '_')
    ensures DigitRun(d + rest) == d
    decreases |d|
  {
    var s := d + rest;
    if |d| == 1 {
      assert s[1..] == rest;
    } else {
      assert s[1..] == d[1..] + rest;
      DigitRunStops(d[1..], rest);
      assert [d[0]] + d[1..] == d;
    }
  }

  /** A string that starts with a digit, and not with the `0d` prefix, reads
      as the value of its leading digit run. */
  lemma ToIOfDigits(s: string)
    requires s != [] && IsDigit(s[0])
    requires !(|s| >= 2 && s[0] == '0' && (s[1] == 'd' || s[1] == 'D'))
    ensures ToI(s) == DecimalValue(DigitRun(s))
  {
    assert !IsAsciiSpace(s[0]);
    assert SkipSpaces(s) == s;
    assert s[0] != '-' && s[0] != '+';
    assert Magnitude(s) == DecimalValue(DigitRun(s));
  }

  /** `to_i` reads back the number `'%d'` wrote, whatever non-numeric text
      follows (a `d` right after a lone `0` would be read as the `0d` prefix). */
  lemma DecimalToI(n: nat, rest: string)
    requires rest == [] || !(IsDigit(rest[0]) || rest[0] == '_' || rest[0] == 'd' || rest[0] == 'D')
    ensures ToI(Decimal(n) + rest) == n
  {
    var d := Decimal(n);
    var s := d + rest;
    assert s[0] == d[0];
    if |s| >= 2 && s[0] == '0' {
      assert |d| == 1;
      assert s[1] == rest[0];
    }
    ToIOfDigits(s);
    DigitRunStops(d, rest);
    DecimalRoundTrip(n);
  }

  /** `to_i` reads back the number `'%02d'` wrote, whatever non-numeric text follows. */
  lemma Pad2ToI(n: nat, rest: string)
    requires rest == [] || !(IsDigit(rest[0]) || rest[0] == '_')
    ensures ToI(Pad2(n) + rest) == n
  {
    var p := Pad2(n);
    var s := p + rest;
    assert s[0] == p[0] && s[1] == p[1];
    if n < 10 {
      assert p == "0" + Decimal(n);
      assert IsDigit(s[1]);
      LeadingZero(Decimal(n));
    } else {
      assert p == Decimal(n);
    }
    ToIOfDigits(s);
    DigitRunStops(p, rest);
    DecimalRoundTrip(n);
  }
}
