/** `sanitize_filename`: drop the characters `CHARACTER_FILTER` matches,
    replace every run that `UNICODE_WHITESPACE` matches by one space, keep
    the first 251 characters. */
module Sanitizer {

  /** The longest name `[0..250]` keeps. */
  const MaxLength: nat := 251

  /** `CHARACTER_FILTER`: the controls U+0000 to U+001F and `/ \ : * ? " < > |`. */
  predicate Forbidden(c: char) {
    c <= '\U{1F}' || c in "/\\:*?\"<>|"
  }

  /** `[[:space:]]` on a UTF-8 string: the Unicode White_Space characters. */
  predicate IsSpace(c: char) {
    ('\t' <= c <= '\r') || c == ' ' || c == '\U{85}' || c == '\U{A0}' || c == '\U{1680}'
    || ('\U{2000}' <= c <= '\U{200A}') || c == '\U{2028}' || c == '\U{2029}'
    || c == '\U{202F}' || c == '\U{205F}' || c == '\U{3000}'
  }

  predicate NoForbidden(s: string) {
    forall i :: 0 <= i < |s| ==> !Forbidden(s[i])
  }

  /** Every whitespace character is a plain space, and no two spaces touch. */
  predicate SpacesCollapsed(s: string) {
    && (forall i :: 0 <= i < |s| && IsSpace(s[i]) ==> s[i] == ' ')
    && (forall i, j :: 0 <= i < |s| && j == i + 1 && j < |s| ==> !(s[i] == ' ' && s[j] == ' '))
  }

  predicate AllSpace(s: string) {
    forall i :: 0 <= i < |s| ==> IsSpace(s[i])
  }

  /** The string with all its whitespace removed. */
  function Unspaced(s: string): (r: string)
    ensures forall i :: 0 <= i < |r| ==> !IsSpace(r[i])
  {
    if s == [] then [] else (if IsSpace(s[0]) then [] else [s[0]]) + Unspaced(s[1..])
  }

  // ---------------------------------------------------------------------
  // gsub(CHARACTER_FILTER, '')

  function Filter(s: string): (r: string)
    ensures NoForbidden(r) && |r| <= |s|
    ensures NoForbidden(s) ==> r == s
  {
    if s == [] then []
    else
      var rest := Filter(s[1..]);
      if Forbidden(s[0]) then rest
      else
        assert NoForbidden([s[0]] + rest) by {
          forall i | 0 <= i < |[s[0]] + rest| ensures !Forbidden(([s[0]] + rest)[i]) {
            if i > 0 { assert ([s[0]] + rest)[i] == rest[i - 1]; }
          }
        }
        assert NoForbidden(s) ==> NoForbidden(s[1..]) && [s[0]] + s[1..] == s;
        [s[0]] + rest
  }

  /** On one character: a forbidden character is dropped, any other kept. */
  lemma FilterChar(c: char)
    ensures Filter([c]) == if Forbidden(c) then [] else [c]
  {
    assert [c][1..] == [];
  }

  /** Filtering works character by character, so it keeps the order of what
      it keeps. */
  lemma {:induction false} FilterAppend(a: string, b: string)
    ensures Filter(a + b) == Filter(a) + Filter(b)
    decreases |a|
  {
    if a != [] {
      assert (a + b)[1..] == a[1..] + b;
      FilterAppend(a[1..], b);
    } else {
      assert a + b == b;
    }
  }

  // ---------------------------------------------------------------------
  // gsub(UNICODE_WHITESPACE, ' ')

  /** `s` without its leading whitespace run. */
  function DropSpaces(s: string): (r: string)
    ensures |r| <= |s|
    ensures r == [] || !IsSpace(r[0])
  {
    if s != [] && IsSpace(s[0]) then DropSpaces(s[1..]) else s
  }

  /** What is left after the run is the end of the string. */
  lemma {:induction false} DropSpacesSuffix(s: string)
    ensures DropSpaces(s) == s[|s| - |DropSpaces(s)|..]
    decreases |s|
  {
    if s != [] && IsSpace(s[0]) {
      DropSpacesSuffix(s[1..]);
      assert s[1..][|s| - 1 - |DropSpaces(s)|..] == s[|s| - |DropSpaces(s)|..];
    }
  }

  /** The leftmost-longest replacement `gsub` performs: each maximal run of
      whitespace becomes one space. */
  function Collapse(s: string): (r: string)
    ensures |r| <= |s|
    decreases |s|
  {
    if s == [] then []
    else if IsSpace(s[0]) then " " + Collapse(DropSpaces(s[1..]))
    else [s[0]] + Collapse(s[1..])
  }

  /** Collapsing leaves whitespace-normal text: single plain spaces, and a
      space is never followed by whitespace. */
  lemma {:induction false} CollapseShape(s: string)
    ensures SpacesCollapsed(Collapse(s))
    ensures Collapse(s) != [] && Collapse(s)[0] == ' ' ==> s != [] && IsSpace(s[0])
    ensures Collapse(s) != [] ==> (Collapse(s)[0] == ' ' <==> IsSpace(s[0]))
    decreases |s|
  {
    if s == [] {
    } else if IsSpace(s[0]) {
      var d := DropSpaces(s[1..]);
      var c := Collapse(d);
      CollapseShape(d);
      ShapeCons(' ', c);
      assert c != [] ==> c[0] != ' ';
    } else {
      var c := Collapse(s[1..]);
      CollapseShape(s[1..]);
      ShapeCons(s[0], c);
    }
  }

  lemma ShapeCons(x: char, c: string)
    requires SpacesCollapsed(c)
    requires IsSpace(x) ==> x == ' '
    requires x == ' ' && c != [] ==> c[0] != ' '
    ensures SpacesCollapsed([x] + c)
  {
    var t := [x] + c;
    forall i, j | 0 <= i < |t| && j == i + 1 && j < |t| ensures !(t[i] == ' ' && t[j] == ' ') {
      assert t[j] == c[j - 1];
      if i > 0 { assert t[i] == c[i - 1]; }
    }
    forall i | 0 <= i < |t| && IsSpace(t[i]) ensures t[i] == ' ' {
      if i > 0 { assert t[i] == c[i - 1]; }
    }
  }

  lemma ShapeTail(s: string)
    requires s != [] && SpacesCollapsed(s)
    ensures SpacesCollapsed(s[1..])
  {
    var t := s[1..];
    forall i, j | 0 <= i < |t| && j == i + 1 && j < |t| ensures !(t[i] == ' ' && t[j] == ' ') {
      assert t[i] == s[i + 1] && t[j] == s[j + 1];
    }
  }

  /** Collapsing only adds spaces: no forbidden character appears that was
      not there before. */
  lemma {:induction false} CollapseKeepsClean(s: string)
    requires NoForbidden(s)
    ensures NoForbidden(Collapse(s))
    decreases |s|
  {
    if s != [] {
      if IsSpace(s[0]) {
        var t := DropSpaces(s[1..]);
        DropSpacesSuffix(s[1..]);
        NoForbiddenSuffix(s[1..], |s[1..]| - |t|);
        CollapseKeepsClean(t);
        CollapseSpaceHead(s);
        NoForbiddenCons(' ', Collapse(t));
      } else {
        NoForbiddenSuffix(s, 1);
        CollapseKeepsClean(s[1..]);
        CollapseWordHead(s);
        NoForbiddenCons(s[0], Collapse(s[1..]));
      }
    }
  }

  lemma NoForbiddenSuffix(s: string, k: nat)
    requires k <= |s| && NoForbidden(s)
    ensures NoForbidden(s[k..])
  {
    forall i | 0 <= i < |s[k..]| ensures !Forbidden(s[k..][i]) {
      assert s[k..][i] == s[k + i];
    }
  }

  lemma NoForbiddenCons(h: char, r: string)
    requires !Forbidden(h) && NoForbidden(r)
    ensures NoForbidden([h] + r)
  {
    forall i | 0 <= i < |[h] + r| ensures !Forbidden(([h] + r)[i]) {
      if i > 0 { assert ([h] + r)[i] == r[i - 1]; }
    }
  }

  /** Collapsing changes nothing but whitespace. */
  lemma {:induction false} CollapseKeepsText(s: string)
    ensures Unspaced(Collapse(s)) == Unspaced(s)
    decreases |s|
  {
    if s != [] {
      if IsSpace(s[0]) {
        var d := DropSpaces(s[1..]);
        CollapseKeepsText(d);
        UnspacedDrop(s[1..]);
        assert (" " + Collapse(d))[1..] == Collapse(d);
      } else {
        CollapseKeepsText(s[1..]);
        assert ([s[0]] + Collapse(s[1..]))[1..] == Collapse(s[1..]);
      }
    }
  }

  lemma {:induction false} UnspacedDrop(s: string)
    ensures Unspaced(DropSpaces(s)) == Unspaced(s)
    decreases |s|
  {
    if s != [] && IsSpace(s[0]) {
      UnspacedDrop(s[1..]);
    }
  }

  /** Whitespace-normal text is left as it is. */
  lemma {:induction false} CollapseFixesCollapsed(s: string)
    requires SpacesCollapsed(s)
    ensures Collapse(s) == s
    decreases |s|
  {
    if s != [] {
      ShapeTail(s);
      if IsSpace(s[0]) {
        assert s[0] == ' ';
        if |s| > 1 {
          assert !(s[0] == ' ' && s[1] == ' ');
          assert !IsSpace(s[1]);
        }
        assert DropSpaces(s[1..]) == s[1..];
      }
      CollapseFixesCollapsed(s[1..]);
      assert [s[0]] + s[1..] == s;
    }
  }

  /** Dropping a whitespace run stops inside the first string unless that
      string is whitespace throughout. */
  lemma {:induction false} DropSpacesAppend(a: string, b: string)
    ensures !AllSpace(a) ==> DropSpaces(a + b) == DropSpaces(a) + b
    ensures AllSpace(a) ==> DropSpaces(a + b) == DropSpaces(b)
    decreases |a|
  {
    if a == [] {
      assert a + b == b;
    } else {
      assert (a + b)[1..] == a[1..] + b;
      DropSpacesAppend(a[1..], b);
      AllSpaceCons(a);
    }
  }

  lemma AllSpaceCons(a: string)
    requires a != []
    ensures AllSpace(a) <==> IsSpace(a[0]) && AllSpace(a[1..])
  {
    if IsSpace(a[0]) && AllSpace(a[1..]) {
      forall i | 0 < i < |a| ensures IsSpace(a[i]) {
        assert a[i] == a[1..][i - 1];
      }
    }
  }

  /** `gsub` works run by run: cutting between a non-space and anything, or
      between anything and a non-space, does not change the result. */
  lemma {:induction false} CollapseAppend(a: string, b: string)
    requires a == [] || b == [] || !IsSpace(a[|a| - 1]) || !IsSpace(b[0])
    ensures Collapse(a + b) == Collapse(a) + Collapse(b)
    decreases |a|, 1
  {
    if a == [] {
      assert a + b == b;
    } else if !IsSpace(a[0]) {
      CollapseAppendWord(a, b);
    } else {
      CollapseAppendSpace(a, b);
    }
  }

  lemma {:induction false} CollapseAppendWord(a: string, b: string)
    requires a != [] && !IsSpace(a[0])
    requires b == [] || !IsSpace(a[|a| - 1]) || !IsSpace(b[0])
    ensures Collapse(a + b) == Collapse(a) + Collapse(b)
    decreases |a|, 0
  {
    var a1 := a[1..];
    assert (a + b)[1..] == a1 + b;
    assert a1 != [] ==> a1[|a1| - 1] == a[|a| - 1];
    CollapseAppend(a1, b);
    CollapseWordHead(a + b);
    CollapseWordHead(a);
    ConcatAssoc([a[0]], Collapse(a1), Collapse(b));
  }

  lemma {:induction false} CollapseAppendSpace(a: string, b: string)
    requires a != [] && IsSpace(a[0])
    requires b == [] || !IsSpace(a[|a| - 1]) || !IsSpace(b[0])
    ensures Collapse(a + b) == Collapse(a) + Collapse(b)
    decreases |a|, 0
  {
    CollapseAppendTail(a, b);
    CollapseSpaceHeadAppend(a, b);
    CollapseSpaceHead(a);
    ConcatAssoc(" ", Collapse(DropSpaces(a[1..])), Collapse(b));
  }

  lemma CollapseSpaceHeadAppend(a: string, b: string)
    requires a != [] && IsSpace(a[0])
    ensures Collapse(a + b) == " " + Collapse(DropSpaces(a[1..] + b))
  {
    assert (a + b)[1..] == a[1..] + b;
    CollapseSpaceHead(a + b);
  }

  /** What follows the first space of `a + b` when `a` starts with whitespace. */
  lemma {:induction false} CollapseAppendTail(a: string, b: string)
    requires a != [] && IsSpace(a[0])
    requires b == [] || !IsSpace(a[|a| - 1]) || !IsSpace(b[0])
    ensures Collapse(DropSpaces(a[1..] + b)) == Collapse(DropSpaces(a[1..])) + Collapse(b)
    decreases |a| - 1, 3
  {
    var a1 := a[1..];
    DropSpacesAppend(a1, b);
    if AllSpace(a1) {
      LastIsSpace(a);
      CollapseAppendRun(a1, b);
    } else {
      assert a1 != [] && a1[|a1| - 1] == a[|a| - 1];
      CollapseAppendRest(a1, b);
    }
  }

  lemma ConcatAssoc(p: string, q: string, r: string)
    ensures p + (q + r) == (p + q) + r
  {
  }

  lemma CollapseWordHead(s: string)
    requires s != [] && !IsSpace(s[0])
    ensures Collapse(s) == [s[0]] + Collapse(s[1..])
  {
  }

  lemma CollapseSpaceHead(s: string)
    requires s != [] && IsSpace(s[0])
    ensures Collapse(s) == " " + Collapse(DropSpaces(s[1..]))
  {
  }

  lemma {:induction false} CollapseAppendRest(a1: string, b: string)
    requires !AllSpace(a1)
    requires b == [] || !IsSpace(a1[|a1| - 1]) || !IsSpace(b[0])
    requires DropSpaces(a1 + b) == DropSpaces(a1) + b
    ensures Collapse(DropSpaces(a1 + b)) == Collapse(DropSpaces(a1)) + Collapse(b)
    decreases |a1|, 2
  {
    var d := DropSpaces(a1);
    DropSpacesLast(a1);
    CollapseAppend(d, b);
  }

  /** Dropping the leading whitespace of a string that is not all
      whitespace keeps its last character. */
  lemma DropSpacesLast(s: string)
    requires !AllSpace(s)
    ensures DropSpaces(s) != [] && DropSpaces(s)[|DropSpaces(s)| - 1] == s[|s| - 1]
  {
    var i :| 0 <= i < |s| && !IsSpace(s[i]);
    DropSpacesKeeps(s, i);
    var d := DropSpaces(s);
    DropSpacesSuffix(s);
    assert d == s[|s| - |d|..];
  }

  lemma CollapseAppendRun(a1: string, b: string)
    requires AllSpace(a1)
    requires b == [] || !IsSpace(b[0])
    requires DropSpaces(a1 + b) == DropSpaces(b)
    ensures Collapse(DropSpaces(a1 + b)) == Collapse(DropSpaces(a1)) + Collapse(b)
  {
    NoSpaceHead(b);
    DropSpacesAllSpace(a1);
    var c := Collapse(b);
    assert Collapse(DropSpaces(a1 + b)) == c;
    assert Collapse(DropSpaces(a1)) == [];
    assert [] + c == c;
  }

  lemma LastIsSpace(a: string)
    requires a != [] && IsSpace(a[0]) && AllSpace(a[1..])
    ensures IsSpace(a[|a| - 1])
  {
    if |a| > 1 {
      assert a[1..][|a| - 2] == a[|a| - 1];
    }
  }

  lemma DropSpacesAllSpace(s: string)
    requires AllSpace(s)
    ensures DropSpaces(s) == []
  {
  }

  lemma NoSpaceHead(b: string)
    requires b == [] || !IsSpace(b[0])
    ensures DropSpaces(b) == b
  {
  }

  lemma {:induction false} DropSpacesKeeps(s: string, i: nat)
    requires i < |s| && !IsSpace(s[i])
    ensures |DropSpaces(s)| >= |s| - i && DropSpaces(s) != []
    decreases |s|
  {
    if IsSpace(s[0]) {
      assert i > 0;
      assert s[1..][i - 1] == s[i];
      DropSpacesKeeps(s[1..], i - 1);
      assert DropSpaces(s) == DropSpaces(s[1..]);
    } else {
      assert DropSpaces(s) == s;
    }
  }

  /** A whitespace run, however long, becomes one space. */
  lemma RunCollapses(s: string)
    requires s != [] && AllSpace(s)
    ensures Collapse(s) == " "
  {
    assert AllSpace(s[1..]) by {
      forall i | 0 <= i < |s[1..]| ensures IsSpace(s[1..][i]) {
        assert s[1..][i] == s[i + 1];
      }
    }
    DropSpacesAppend(s[1..], []);
    assert s[1..] + [] == s[1..];
  }

  // ---------------------------------------------------------------------
  // [0..250] and the whole sanitiser

  /** `s[0..250]`: at most the first 251 characters. */
  function Truncate(s: string): (r: string)
    ensures |r| <= MaxLength && |r| <= |s| && r == s[..|r|]
    ensures |s| <= MaxLength ==> r == s
    ensures |s| > MaxLength ==> |r| == MaxLength
  {
    if |s| <= MaxLength then s else s[..MaxLength]
  }

  function Sanitize(s: string): (r: string) {
    Truncate(Collapse(Filter(s)))
  }

  lemma PrefixKeepsShape(s: string, k: nat)
    requires k <= |s| && NoForbidden(s) && SpacesCollapsed(s)
    ensures NoForbidden(s[..k]) && SpacesCollapsed(s[..k])
  {
    var t := s[..k];
    forall i, j | 0 <= i < |t| && j == i + 1 && j < |t| ensures !(t[i] == ' ' && t[j] == ' ') {
      assert t[i] == s[i] && t[j] == s[j];
    }
  }

  /** What `sanitize_filename` guarantees of every name it returns. */
  lemma SanitizeShape(s: string)
    ensures NoForbidden(Sanitize(s))
    ensures SpacesCollapsed(Sanitize(s))
    ensures |Sanitize(s)| <= MaxLength
  {
    var c := Collapse(Filter(s));
    CollapseShape(Filter(s));
    CollapseKeepsClean(Filter(s));
    PrefixKeepsShape(c, |Truncate(c)|);
  }

  /** A name that already has that shape passes through unchanged. */
  lemma SanitizeFixesClean(s: string)
    requires NoForbidden(s) && SpacesCollapsed(s) && |s| <= MaxLength
    ensures Sanitize(s) == s
  {
    CollapseFixesCollapsed(s);
  }

  /** `sanitize_filename` is idempotent. */
  lemma SanitizeIdempotent(s: string)
    ensures Sanitize(Sanitize(s)) == Sanitize(s)
  {
    SanitizeShape(s);
    SanitizeFixesClean(Sanitize(s));
  }
}
