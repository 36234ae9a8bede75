/** The email format check `isValidEmail`: one fixed regular expression,
    `^[^\s@]+@[^\s@]+\.[^\s@]+$`, stated as a predicate on strings. */
module Email {
  import opened Text

  /** One `[^\s@]+` piece of the pattern: at least one character, none of
      them whitespace and none of them '@'. */
  predicate IsRun(t: string) {
    |t| > 0 && forall i | 0 <= i < |t| :: !IsWs(t[i]) && t[i] != '@'
  }

  /** `s` matches the pattern with its '@' at index `at` and the '.' that
      separates the last two pieces at index `dot`. */
  predicate MatchesAt(s: string, at: int, dot: int) {
    && 0 < at < dot - 1 && dot < |s| - 1
    && IsRun(s[..at]) && s[at] == '@'
    && IsRun(s[at + 1..dot]) && s[dot] == '.'
    && IsRun(s[dot + 1..])
  }

  /** `isValidEmail(email)`: the whole string matches the pattern for some
      placement of its '@' and of the separating '.'. */
  predicate IsValidEmail(email: string) {
    exists at, dot | 0 < at < |email| && 0 < dot < |email| :: MatchesAt(email, at, dot)
  }

  /** The index of the first `c` in `s`, or `|s|` when `s` has none. */
  function FirstIndex(s: string, c: char): (i: nat)
    ensures i <= |s|
    ensures c !in s[..i]
    ensures i < |s| ==> s[i] == c
  {
    if s == [] then 0
    else if s[0] == c then 0
    else
      var j := FirstIndex(s[1..], c);
      assert s[..j + 1] == [s[0]] + s[1..][..j];
      j + 1
  }

  /** Two candidate positions of the first `c` that both have no `c` before
      them are the same position. */
  lemma {:induction false} FirstIndexUnique(s: string, c: char, k: int)
    requires 0 <= k < |s| && s[k] == c && c !in s[..k]
    ensures FirstIndex(s, c) == k
  {
  }

  /** The pattern's language described field by field: no whitespace
      anywhere, exactly one '@', something before it, and after it a '.'
      that is neither the first nor the last character of the domain. */
  predicate HasEmailShape(s: string) {
    && (forall i | 0 <= i < |s| :: !IsWs(s[i]))
    && multiset(s)['@'] == 1
    && var at := FirstIndex(s, '@');
       0 < at && exists k | at + 1 < k < |s| - 1 :: s[k] == '.'
  }

  /** The characters of a run, read back in the string it was cut from. */
  lemma {:induction false} RunChars(s: string, lo: int, hi: int)
    requires 0 <= lo <= hi <= |s| && IsRun(s[lo..hi])
    ensures forall i | lo <= i < hi :: !IsWs(s[i]) && s[i] != '@'
  {
    forall i | lo <= i < hi ensures !IsWs(s[i]) && s[i] != '@' {
      assert s[i] == s[lo..hi][i - lo];
    }
  }

  /** A non-empty stretch of a string free of whitespace and '@' is a run. */
  lemma {:induction false} CharsRun(s: string, lo: int, hi: int)
    requires 0 <= lo < hi <= |s|
    requires forall i | lo <= i < hi :: !IsWs(s[i]) && s[i] != '@'
    ensures IsRun(s[lo..hi])
  {
    forall i | 0 <= i < hi - lo ensures !IsWs(s[lo..hi][i]) && s[lo..hi][i] != '@' {
      assert s[lo..hi][i] == s[lo + i];
    }
  }

  /** The string holds exactly one '@' exactly when it sits at `at` and at no
      other index. */
  lemma {:induction false} SingleAt(s: string, at: int)
    requires 0 <= at < |s| && s[at] == '@'
    ensures multiset(s)['@'] == 1 <==> forall i | 0 <= i < |s| && i != at :: s[i] != '@'
  {
    var before, after := s[..at], s[at + 1..];
    assert s == before + [s[at]] + after;
    assert multiset(s)['@'] == multiset(before)['@'] + 1 + multiset(after)['@'];
    if forall i | 0 <= i < |s| && i != at :: s[i] != '@' {
      assert forall j | 0 <= j < |before| :: before[j] == s[j];
      assert forall j | 0 <= j < |after| :: after[j] == s[at + 1 + j];
      assert '@' !in before && '@' !in after;
    }
    if multiset(s)['@'] == 1 {
      assert '@' !in before && '@' !in after;
      forall i | 0 <= i < |s| && i != at ensures s[i] != '@' {
        if i < at { assert s[i] == before[i]; } else { assert s[i] == after[i - at - 1]; }
      }
    }
  }

  /** A string the pattern matches has the described shape. */
  lemma {:induction false} MatchHasShape(s: string, at: int, dot: int)
    requires MatchesAt(s, at, dot)
    ensures HasEmailShape(s)
  {
    RunChars(s, 0, at);
    assert s[..at] == s[0..at];
    RunChars(s, at + 1, dot);
    RunChars(s, dot + 1, |s|);
    assert s[dot + 1..] == s[dot + 1..|s|];
    SingleAt(s, at);
    assert s[..at] == s[0..at];
    FirstIndexUnique(s, '@', at);
    assert at + 1 < dot < |s| - 1 && s[dot] == '.';
  }

  /** A string of the described shape is matched by the pattern, and its
      only '@' together with any inner '.' of the domain is a split the
      pattern accepts. */
  lemma {:induction false} ShapeMatches(s: string)
    requires HasEmailShape(s)
    ensures forall dot | FirstIndex(s, '@') + 1 < dot < |s| - 1 && s[dot] == '.' ::
      MatchesAt(s, FirstIndex(s, '@'), dot)
    ensures IsValidEmail(s)
  {
    var at := FirstIndex(s, '@');
    assert '@' in multiset(s);
    SingleAt(s, at);
    CharsRun(s, 0, at);
    assert s[..at] == s[0..at];
    forall dot | at + 1 < dot < |s| - 1 && s[dot] == '.' ensures MatchesAt(s, at, dot) {
      CharsRun(s, at + 1, dot);
      CharsRun(s, dot + 1, |s|);
      assert s[dot + 1..] == s[dot + 1..|s|];
    }
    var dot :| at + 1 < dot < |s| - 1 && s[dot] == '.';
    assert MatchesAt(s, at, dot);
  }

  /** `isValidEmail` accepts exactly the strings of the described shape. */
  lemma {:induction false} EmailCharacterization(s: string)
    ensures IsValidEmail(s) <==> HasEmailShape(s)
  {
    if IsValidEmail(s) {
      var at, dot :| 0 < at < |s| && 0 < dot < |s| && MatchesAt(s, at, dot);
      MatchHasShape(s, at, dot);
    }
    if HasEmailShape(s) {
      ShapeMatches(s);
    }
  }

  /** The address the validator is documented to accept. */
  lemma AcceptsPlainAddress()
    ensures IsValidEmail("user@example.com")
  {
    var s := "user@example.com";
    assert s[..4] == "user" && s[5..12] == "example" && s[13..] == "com";
    assert MatchesAt(s, 4, 12);
  }

  /** The addresses the validator is documented to reject: no '.' in the
      domain, no '@' at all, and two '@'. */
  lemma RejectsMalformedAddresses()
    ensures !IsValidEmail("a@b")
    ensures !IsValidEmail("abc.com")
    ensures !IsValidEmail("a@b@c.com")
  {
    EmailCharacterization("a@b");
    EmailCharacterization("abc.com");
    assert multiset("abc.com")['@'] == 0;
    EmailCharacterization("a@b@c.com");
    assert multiset("a@b@c.com")['@'] == 2;
  }
}
