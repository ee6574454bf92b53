/** Plain facts about strings that several models share. */
module Texts {

  /** `part in text` */
  predicate Contains(text: string, part: string) {
    exists i, j | 0 <= i <= j <= |text| :: text[i..j] == part
  }

  lemma ContainsAround(before: string, text: string, after: string, part: string)
    requires Contains(text, part)
    ensures Contains(before + text + after, part)
  {
    var i, j :| 0 <= i <= j <= |text| && text[i..j] == part;
    assert (before + text + after)[|before| + i..|before| + j] == part;
  }

  lemma ContainsItself(text: string)
    ensures Contains(text, text)
  {
    assert text[0..|text|] == text;
  }

  lemma ContainsTrans(text: string, part: string, inner: string)
    requires Contains(text, part) && Contains(part, inner)
    ensures Contains(text, inner)
  {
    var i, j :| 0 <= i <= j <= |text| && text[i..j] == part;
    assert text == text[..i] + part + text[j..];
    ContainsAround(text[..i], part, text[j..], inner);
  }

  function LowerChar(c: char): char {
    if 'A' <= c <= 'Z' then c - 'A' + 'a' else c
  }

  /** Lower case, for ASCII letters. */
  function Lower(s: string): (r: string)
    ensures |r| == |s|
  {
    seq(|s|, i requires 0 <= i < |s| => LowerChar(s[i]))
  }

  /** The same letter, in upper or lower case, or the same other character. */
  predicate SameLetter(a: char, b: char) {
    a == b || ('A' <= a <= 'Z' && b as int == a as int + 32) || ('A' <= b <= 'Z' && a as int == b as int + 32)
  }

  predicate Spells(a: string, b: string) {
    |a| == |b| && forall i | 0 <= i < |a| :: SameLetter(a[i], b[i])
  }

  /** `term` occurs in `text`, whatever the case of its letters. */
  predicate SpelledIn(text: string, term: string) {
    exists i, j | 0 <= i <= j <= |text| :: Spells(text[i..j], term)
  }

  /** Searching in lower case is searching without regard to case. */
  lemma LowerContains(text: string, term: string)
    ensures Contains(Lower(text), Lower(term)) <==> SpelledIn(text, term)
  {
    if Contains(Lower(text), Lower(term)) {
      var i, j :| 0 <= i <= j <= |text| && Lower(text)[i..j] == Lower(term);
      forall k | 0 <= k < j - i ensures SameLetter(text[i..j][k], term[k]) {
        assert Lower(text)[i..j][k] == LowerChar(text[i + k]) && Lower(term)[k] == LowerChar(term[k]);
      }
      assert Spells(text[i..j], term);
    }
    if SpelledIn(text, term) {
      var i, j :| 0 <= i <= j <= |text| && Spells(text[i..j], term);
      assert Lower(text)[i..j] == Lower(term);
    }
  }

  predicate EndsWith(s: string, tail: string) {
    |tail| <= |s| && s[|s| - |tail|..] == tail
  }

  /** ASCII white space, as str.strip() sees it. */
  predicate IsBlank(c: char) {
    c == ' ' || ('\t' <= c <= '\r') || ('\U{1c}' <= c <= '\U{1f}')
  }

  /** `s.strip()` */
  function Stripped(s: string): string {
    if s != [] && IsBlank(s[0]) then Stripped(s[1..])
    else if s != [] && IsBlank(s[|s| - 1]) then Stripped(s[..|s| - 1])
    else s
  }

  /** Outside of positions i to j there are only blanks, and the text in between has none at its ends. */
  predicate Trims(s: string, i: nat, j: nat) {
    && i <= j <= |s| && (forall k | 0 <= k < |s| && !(i <= k < j) :: IsBlank(s[k]))
    && (i < j ==> !IsBlank(s[i]) && !IsBlank(s[j - 1]))
  }

  lemma {:induction false} SameSlice(s: string, rest: string, shift: nat, i: nat, j: nat)
    requires i <= j <= |rest| && |rest| + shift <= |s| && forall k | 0 <= k < |rest| :: rest[k] == s[k + shift]
    ensures s[i + shift..j + shift] == rest[i..j]
  {
    var a, b := s[i + shift..j + shift], rest[i..j];
    forall k | 0 <= k < |a| ensures a[k] == b[k] {
      assert a[k] == s[i + shift + k] && b[k] == rest[i + k];
    }
  }

  lemma TrimsAfterBlank(s: string, i: nat, j: nat)
    requires s != [] && IsBlank(s[0]) && Trims(s[1..], i, j)
    ensures Trims(s, i + 1, j + 1) && s[i + 1..j + 1] == s[1..][i..j]
  {
    var rest := s[1..];
    forall k | 0 <= k < |s| && !(i + 1 <= k < j + 1) ensures IsBlank(s[k]) {
      if k > 0 { assert rest[k - 1] == s[k]; }
    }
    if i < j { assert rest[i] == s[i + 1] && rest[j - 1] == s[j]; }
    SameSlice(s, rest, 1, i, j);
  }

  lemma TrimsBeforeBlank(s: string, i: nat, j: nat)
    requires s != [] && IsBlank(s[|s| - 1]) && Trims(s[..|s| - 1], i, j)
    ensures Trims(s, i, j) && s[i..j] == s[..|s| - 1][i..j]
  {
    var rest := s[..|s| - 1];
    forall k | 0 <= k < |s| && !(i <= k < j) ensures IsBlank(s[k]) {
      if k < |s| - 1 { assert rest[k] == s[k]; }
    }
    if i < j { assert rest[i] == s[i] && rest[j - 1] == s[j - 1]; }
    SameSlice(s, rest, 0, i, j);
  }

  lemma NothingToTrim(s: string)
    requires s == [] || (!IsBlank(s[0]) && !IsBlank(s[|s| - 1]))
    ensures Trims(s, 0, |s|)
  {
  }

  /** Blanks are taken from both ends and nothing else. */
  lemma {:induction false} StripsBlanksOnly(s: string)
    ensures exists i, j | 0 <= i <= j <= |s| :: Stripped(s) == s[i..j] && Trims(s, i, j)
    decreases |s|
  {
    hide Trims;
    if s != [] && IsBlank(s[0]) {
      StripsBlanksOnly(s[1..]);
      var i, j :| 0 <= i <= j <= |s| - 1 && Stripped(s) == s[1..][i..j] && Trims(s[1..], i, j);
      TrimsAfterBlank(s, i, j);
      assert Stripped(s) == s[i + 1..j + 1] && Trims(s, i + 1, j + 1);
    } else if s != [] && IsBlank(s[|s| - 1]) {
      StripsBlanksOnly(s[..|s| - 1]);
      var i, j :| 0 <= i <= j <= |s| - 1 && Stripped(s) == s[..|s| - 1][i..j] && Trims(s[..|s| - 1], i, j);
      TrimsBeforeBlank(s, i, j);
      assert Stripped(s) == s[i..j] && Trims(s, i, j);
    } else {
      NothingToTrim(s);
      assert Stripped(s) == s[0..|s|] && Trims(s, 0, |s|);
    }
  }
}
