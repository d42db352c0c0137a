/** Strings as sequences of runes, and the few operations of Go's strings and unicode packages
    that the voice agent uses on them. */
module Text {

  /** unicode.IsSpace. */
  predicate IsSpace(c: char) {
    || '\t' <= c <= '\r'
    || c == ' ' || c == '\U{0085}' || c == '\U{00A0}' || c == '\U{1680}'
    || '\U{2000}' <= c <= '\U{200A}'
    || c == '\U{2028}' || c == '\U{2029}' || c == '\U{202F}' || c == '\U{205F}' || c == '\U{3000}'
  }

  lemma SpacesAre(c: char)
    ensures IsSpace(c) <==> c in [
      '\t', '\n', '\U{000B}', '\U{000C}', '\r', ' ', '\U{0085}', '\U{00A0}', '\U{1680}',
      '\U{2000}', '\U{2001}', '\U{2002}', '\U{2003}', '\U{2004}', '\U{2005}', '\U{2006}', '\U{2007}', '\U{2008}',
      '\U{2009}', '\U{200A}', '\U{2028}', '\U{2029}', '\U{202F}', '\U{205F}', '\U{3000}']
  {
    assert '\t' as int == 9 && '\r' as int == 13;
  }

  /** The first index from i on that holds no space, or the length. */
  function InkFrom(s: string, i: nat): (r: nat)
    requires i <= |s|
    ensures i <= r <= |s| && (r < |s| ==> !IsSpace(s[r]))
    ensures forall k | i <= k < r :: IsSpace(s[k])
    decreases |s| - i
  {
    if i < |s| && IsSpace(s[i]) then InkFrom(s, i + 1) else i
  }

  /** The least index not before i behind which, up to j, there is only space. */
  function InkUpTo(s: string, i: nat, j: nat): (r: nat)
    requires i <= j <= |s|
    ensures i <= r <= j && (r > i ==> !IsSpace(s[r - 1]))
    ensures forall k | r <= k < j :: IsSpace(s[k])
    decreases j
  {
    if i < j && IsSpace(s[j - 1]) then InkUpTo(s, i, j - 1) else j
  }

  /** strings.TrimSpace. */
  function TrimSpace(s: string): string {
    s[InkFrom(s, 0)..InkUpTo(s, InkFrom(s, 0), |s|)]
  }

  predicate Blank(s: string) {
    forall i | 0 <= i < |s| :: IsSpace(s[i])
  }

  /** The text without the runes that `drop` picks. */
  function Without(drop: char -> bool, s: string): string {
    if s == "" then ""
    else Without(drop, s[..|s| - 1]) + if drop(s[|s| - 1]) then "" else [s[|s| - 1]]
  }

  lemma {:induction false} WithoutConcat(drop: char -> bool, a: string, b: string)
    ensures Without(drop, a + b) == Without(drop, a) + Without(drop, b)
  {
    if b == "" {
      assert a + b == a;
    } else {
      WithoutConcat(drop, a, b[..|b| - 1]);
      assert (a + b)[..|a + b| - 1] == a + b[..|b| - 1];
    }
  }

  lemma WithoutDropped(drop: char -> bool, s: string, c: char)
    requires drop(c)
    ensures Without(drop, s + [c]) == Without(drop, s)
  {
    var t := s + [c];
    assert t[..|t| - 1] == s;
  }

  lemma {:induction false} WithoutNothing(drop: char -> bool, s: string)
    requires forall i | 0 <= i < |s| :: !drop(s[i])
    ensures Without(drop, s) == s
  {
    if s != "" {
      WithoutNothing(drop, s[..|s| - 1]);
    }
  }

  /** The text without any of its white space. */
  function Squeeze(s: string): string {
    Without(IsSpace, s)
  }

  lemma SqueezeConcat(a: string, b: string)
    ensures Squeeze(a + b) == Squeeze(a) + Squeeze(b)
  {
    WithoutConcat(IsSpace, a, b);
  }

  lemma {:induction false} SqueezeBlank(s: string)
    ensures Squeeze(s) == "" <==> Blank(s)
  {
    if s != "" {
      SqueezeBlank(s[..|s| - 1]);
    }
  }

  lemma SqueezeSlice(s: string, a: nat, b: nat)
    requires a <= b <= |s| && Blank(s[..a]) && Blank(s[b..])
    ensures Squeeze(s[a..b]) == Squeeze(s)
  {
    assert s == s[..a] + (s[a..b] + s[b..]);
    SqueezeConcat(s[..a], s[a..b] + s[b..]);
    SqueezeConcat(s[a..b], s[b..]);
    SqueezeBlank(s[..a]);
    SqueezeBlank(s[b..]);
  }

  /** Trimming takes a slice of the text. */
  lemma TrimSpaceSlices(s: string) returns (a: nat, b: nat)
    ensures a <= b <= |s| && TrimSpace(s) == s[a..b]
    ensures Blank(s[..a]) && Blank(s[b..])
    ensures a < b ==> !IsSpace(s[a]) && !IsSpace(s[b - 1])
  {
    a := InkFrom(s, 0);
    b := InkUpTo(s, a, |s|);
  }

  /** Trimming loses nothing but white space, and loses everything exactly on a blank text. */
  lemma TrimSpaceKeeps(s: string)
    ensures Squeeze(TrimSpace(s)) == Squeeze(s)
    ensures TrimSpace(s) == "" <==> Blank(s)
  {
    var a, b := TrimSpaceSlices(s);
    SqueezeSlice(s, a, b);
    if a < b {
      assert !Blank(s) by { assert !IsSpace(s[a]); }
    } else {
      SqueezeBlank(s);
    }
  }

  /** strings.Contains. */
  predicate Contains(s: string, sub: string) {
    exists i :: 0 <= i <= |s| - |sub| && OccursAt(s, sub, i)
  }

  predicate OccursAt(s: string, sub: string, i: nat)
    requires i + |sub| <= |s|
  {
    s[i..i + |sub|] == sub
  }

  lemma ContainedInSlice(s: string, a: nat, b: nat, sub: string)
    requires a <= b <= |s| && Contains(s[a..b], sub)
    ensures Contains(s, sub)
  {
    var i :| 0 <= i <= |s[a..b]| - |sub| && OccursAt(s[a..b], sub, i);
    SliceOfSlice(s, a, b, i, i + |sub|);
    assert OccursAt(s, sub, a + i);
  }

  /** Trimming a text takes no phrase without white space away from it. */
  lemma TrimKeepsPhrase(s: string, phrase: string)
    requires phrase != "" && forall i | 0 <= i < |phrase| :: !IsSpace(phrase[i])
    ensures Contains(TrimSpace(s), phrase) <==> Contains(s, phrase)
  {
    var a, b := TrimSpaceSlices(s);
    if Contains(TrimSpace(s), phrase) {
      ContainedInSlice(s, a, b, phrase);
    }
    if Contains(s, phrase) {
      var i :| 0 <= i <= |s| - |phrase| && OccursAt(s, phrase, i);
      PhraseIsInside(s, phrase, a, b, i);
      SliceOfSlice(s, a, b, i - a, i - a + |phrase|);
      assert OccursAt(s[a..b], phrase, i - a);
    }
  }

  lemma PhraseIsInside(s: string, phrase: string, a: nat, b: nat, i: nat)
    requires phrase != "" && !IsSpace(phrase[0]) && !IsSpace(phrase[|phrase| - 1])
    requires a <= b <= |s| && Blank(s[..a]) && Blank(s[b..]) && i + |phrase| <= |s| && OccursAt(s, phrase, i)
    ensures a <= i && i + |phrase| <= b
  {
    var n := |phrase|;
    assert phrase == s[i..i + n];
    assert phrase[0] == s[i] && phrase[n - 1] == s[i + n - 1];
    forall k | 0 <= k < a ensures IsSpace(s[k]) {
      assert IsSpace(s[..a][k]);
    }
    forall k | b <= k < |s| ensures IsSpace(s[k]) {
      assert IsSpace(s[b..][k - b]);
    }
  }

  lemma SliceOfSlice<T>(s: seq<T>, a: nat, b: nat, x: nat, y: nat)
    requires a <= b <= |s| && x <= y <= b - a
    ensures s[a..b][x..y] == s[a + x..a + y]
  {
    var l, r := s[a..b][x..y], s[a + x..a + y];
    assert |l| == |r|;
    forall k | 0 <= k < |l| ensures l[k] == r[k] {
      assert l[k] == s[a..b][x + k];
    }
  }

  /** strings.ContainsAny. */
  predicate ContainsAny(s: string, chars: string) {
    exists c :: c in s && c in chars
  }

  predicate IsDigit(c: char) {
    '0' <= c <= '9'
  }
}
