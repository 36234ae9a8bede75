/** Whitespace and String.prototype.trim, as the validator uses them. */
module Text {

  /** The ECMAScript WhiteSpace and LineTerminator code points. Both the `\s`
      class of a regular expression and `trim()` are defined by this one set. */
  predicate IsWs(c: char) {
    || c == '\t' || c == '\n' || c == '\U{000B}' || c == '\U{000C}' || c == '\r'
    || c == ' ' || c == '\U{00A0}' || c == '\U{1680}'
    || ('\U{2000}' <= c <= '\U{200A}')
    || c == '\U{2028}' || c == '\U{2029}' || c == '\U{202F}' || c == '\U{205F}'
    || c == '\U{3000}' || c == '\U{FEFF}'
  }

  /** Every character of `s` is whitespace (true of the empty string). */
  predicate AllWs(s: string) {
    forall i | 0 <= i < |s| :: IsWs(s[i])
  }

  /** Every character of `s` from index `lo` up to (not including) `hi` is whitespace. */
  predicate WsBetween(s: string, lo: int, hi: int)
    requires 0 <= lo <= hi <= |s|
  {
    forall i | lo <= i < hi :: IsWs(s[i])
  }

  /** `s` with its leading whitespace removed: a suffix of `s` whose dropped
      prefix is all whitespace and which does not itself start with whitespace. */
  function TrimStart(s: string): (r: string)
    ensures |r| <= |s| && r == s[|s| - |r|..]
    ensures WsBetween(s, 0, |s| - |r|)
    ensures r == [] || !IsWs(r[0])
  {
    if |s| > 0 && IsWs(s[0]) then TrimStart(s[1..]) else s
  }

  /** `s` with its trailing whitespace removed: a prefix of `s` whose dropped
      suffix is all whitespace and which does not itself end with whitespace. */
  function TrimEnd(s: string): (r: string)
    ensures |r| <= |s| && r == s[..|r|]
    ensures WsBetween(s, |r|, |s|)
    ensures r == [] || !IsWs(r[|r| - 1])
  {
    if |s| > 0 && IsWs(s[|s| - 1]) then TrimEnd(s[..|s| - 1]) else s
  }

  /** `value.trim()`. */
  function Trim(s: string): string {
    TrimEnd(TrimStart(s))
  }

  /** The trimmed value is the slice `s[a..b]` of the raw value: everything
      cut from either end is whitespace, and what is left neither starts nor
      ends with whitespace. */
  lemma {:induction false} TrimSlice(s: string) returns (a: nat, b: nat)
    ensures a <= b <= |s| && Trim(s) == s[a..b]
    ensures WsBetween(s, 0, a) && WsBetween(s, b, |s|)
    ensures Trim(s) == [] || (!IsWs(Trim(s)[0]) && !IsWs(Trim(s)[|Trim(s)| - 1]))
  {
    var t := TrimStart(s);
    var r := TrimEnd(t);
    a, b := |s| - |t|, |s| - |t| + |r|;
    assert r == s[a..b];
    forall i | b <= i < |s| ensures IsWs(s[i]) {
      assert s[i] == t[i - a];
    }
    if r != [] {
      assert r[0] == t[0];
    }
  }

  /** A trimmed value is empty exactly when the raw value is empty or all whitespace. */
  lemma {:induction false} TrimEmptyIff(s: string)
    ensures Trim(s) == "" <==> AllWs(s)
  {
    var a, b := TrimSlice(s);
    if Trim(s) != "" {
      assert Trim(s)[0] == s[a] && !IsWs(s[a]);
    }
  }

  /** A value with no whitespace at either end is left as it is by trimming. */
  lemma {:induction false} TrimKeeps(s: string)
    requires s == [] || (!IsWs(s[0]) && !IsWs(s[|s| - 1]))
    ensures Trim(s) == s
  {
    assert TrimStart(s) == s;
    assert TrimEnd(s) == s;
  }

  /** Trimming twice is trimming once. */
  lemma {:induction false} TrimIdempotent(s: string)
    ensures Trim(Trim(s)) == Trim(s)
  {
    var a, b := TrimSlice(s);
    TrimKeeps(Trim(s));
  }
}
