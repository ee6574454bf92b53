/** Which field names denote values that are masked by default. */
module SensitiveNames {
  import opened Texts

  const REDACTED := "***REDACTED***"

  const SENSITIVE_PARTS: seq<string> := [
    "token", "key", "access_key", "secret", "session_token", "sessiontoken", "tokenvalue", "streamurl", "password",
    "passwd", "mfa", "api_key", "apikey", "private_key"]

  function Underscored(c: char): char {
    if c == '-' then '_' else LowerChar(c)
  }

  /** `name.lower().replace("-", "_")`, for ASCII names */
  function Normalized(name: string): (r: string)
    ensures |r| == |name|
  {
    seq(|name|, i requires 0 <= i < |name| => Underscored(name[i]))
  }

  /** `(?:^|[_\-.])key$|Key$`, up to the end of the text */
  predicate EndsInKey(s: string) {
    EndsWith(s, "Key") || (EndsWith(s, "key") && (|s| == 3 || s[|s| - 4] in ['_', '-', '.']))
  }

  /** In Python `$` also matches in front of a final line feed. */
  predicate HasKeyWord(name: string) {
    EndsInKey(name) || (EndsWith(name, "\n") && EndsInKey(name[..|name| - 1]))
  }

  predicate HasPart(name: string, parts: seq<string>) {
    exists i | 0 <= i < |parts| :: Contains(Normalized(name), parts[i])
  }

  predicate IsSensitiveName(name: string) {
    HasPart(name, SENSITIVE_PARTS) || HasKeyWord(name)
  }

  /** The parts that decide; every other part contains one of them. */
  const DECISIVE_PARTS: seq<string> := ["token", "key", "secret", "streamurl", "password", "passwd", "mfa"]

  function DecisivePartOf(i: nat): (d: nat)
    requires i < |SENSITIVE_PARTS|
    ensures d < |DECISIVE_PARTS| && Contains(SENSITIVE_PARTS[i], DECISIVE_PARTS[d])
  {
    var d := [0, 1, 1, 2, 0, 0, 0, 3, 4, 5, 6, 1, 1, 1][i];
    var at := [0, 0, 7, 0, 8, 7, 0, 0, 0, 0, 0, 4, 3, 8][i];
    assert SENSITIVE_PARTS[i][at..at + |DECISIVE_PARTS[d]|] == DECISIVE_PARTS[d];
    d
  }

  lemma KeyAtEndIsAPart(name: string, s: string)
    requires s <= name && EndsInKey(s)
    ensures Contains(Normalized(name), "key")
  {
    var n := Normalized(name);
    assert s[|s| - 3..] == "Key" || s[|s| - 3..] == "key";
    assert name[|s| - 3] == s[|s| - 3..][0] && name[|s| - 2] == s[|s| - 3..][1] && name[|s| - 1] == s[|s| - 3..][2];
    assert n[|s| - 3..|s|] == "key";
  }

  /** The same letter but for its case, or hyphen and underscore. */
  predicate SameSign(a: char, b: char) {
    SameLetter(a, b) || (a in ['-', '_'] && b in ['-', '_'])
  }

  predicate Matches(name: string, part: string, i: nat) {
    i + |part| <= |name| && forall k | 0 <= k < |part| :: SameSign(name[i + k], part[k])
  }

  /** The part occurs somewhere in the name, in any spelling. */
  predicate Spelled(name: string, part: string) {
    exists i | 0 <= i <= |name| :: Matches(name, part, i)
  }

  lemma SameSignSameSpelling(a: char, b: char)
    ensures SameSign(a, b) <==> Underscored(a) == Underscored(b)
  {
  }

  lemma PartIsSpelled(name: string, part: string)
    requires forall k | 0 <= k < |part| :: Underscored(part[k]) == part[k]
    ensures Contains(Normalized(name), part) <==> Spelled(name, part)
  {
    if Contains(Normalized(name), part) {
      var i, j :| 0 <= i <= j <= |name| && Normalized(name)[i..j] == part;
      forall k | 0 <= k < |part| ensures SameSign(name[i + k], part[k]) {
        assert Normalized(name)[i..j][k] == Underscored(name[i + k]);
        SameSignSameSpelling(name[i + k], part[k]);
      }
      assert Matches(name, part, i);
    }
    if Spelled(name, part) {
      var i :| 0 <= i <= |name| && Matches(name, part, i);
      forall k | 0 <= k < |part| ensures Normalized(name)[i + k] == part[k] {
        SameSignSameSpelling(name[i + k], part[k]);
      }
      assert Normalized(name)[i..i + |part|] == part;
    }
  }

  lemma DecisivePartsAreNormal(d: nat)
    requires d < |DECISIVE_PARTS|
    ensures forall k | 0 <= k < |DECISIVE_PARTS[d]| :: Underscored(DECISIVE_PARTS[d][k]) == DECISIVE_PARTS[d][k]
  {
  }

  lemma OnlyDecisiveParts(name: string)
    ensures IsSensitiveName(name) <==> HasPart(name, DECISIVE_PARTS)
  {
    hide Contains, Normalized;
    if HasPart(name, SENSITIVE_PARTS) {
      var i :| 0 <= i < |SENSITIVE_PARTS| && Contains(Normalized(name), SENSITIVE_PARTS[i]);
      ContainsTrans(Normalized(name), SENSITIVE_PARTS[i], DECISIVE_PARTS[DecisivePartOf(i)]);
    } else if HasKeyWord(name) {
      KeyAtEndIsAPart(name, if EndsInKey(name) then name else name[..|name| - 1]);
      assert Contains(Normalized(name), DECISIVE_PARTS[1]);
    }
    if HasPart(name, DECISIVE_PARTS) {
      var d :| 0 <= d < |DECISIVE_PARTS| && Contains(Normalized(name), DECISIVE_PARTS[d]);
      assert DECISIVE_PARTS[d] == SENSITIVE_PARTS[[0, 1, 3, 7, 8, 9, 10][d]];
    }
  }

  /**
    A name is sensitive exactly if one of seven words occurs in it, in upper or lower case, with hyphens or
    underscores: the other seven parts and the regular expression add no name.
   */
  lemma DecisivePartsDecide(name: string)
    ensures IsSensitiveName(name) <==> exists d | 0 <= d < |DECISIVE_PARTS| :: Spelled(name, DECISIVE_PARTS[d])
  {
    hide Contains, Normalized, Spelled, Underscored;
    OnlyDecisiveParts(name);
    forall d | 0 <= d < |DECISIVE_PARTS| ensures Contains(Normalized(name), DECISIVE_PARTS[d]) <==> Spelled(name, DECISIVE_PARTS[d]) {
      DecisivePartsAreNormal(d);
      PartIsSpelled(name, DECISIVE_PARTS[d]);
    }
  }

  /** So neither letter case nor the choice between hyphen and underscore matters, although the expression looks at both. */
  lemma SpellingDoesNotMatter(a: string, b: string)
    requires |a| == |b| && forall i | 0 <= i < |a| :: SameSign(a[i], b[i])
    ensures IsSensitiveName(a) <==> IsSensitiveName(b)
  {
    hide Contains;
    forall i | 0 <= i < |a| ensures Underscored(a[i]) == Underscored(b[i]) {
      SameSignSameSpelling(a[i], b[i]);
    }
    assert Normalized(a) == Normalized(b);
    OnlyDecisiveParts(a);
    OnlyDecisiveParts(b);
  }
}
