/** The string tests the script applies to its inputs: `is_blank`, `is_not_blank` and `str.strip()`,
    plus the substring test the platform uses for `partialName` searches. */
module Text {
  import opened Wrappers

  /** A character Python's `str.isspace` and `str.strip` treat as whitespace: the ASCII controls
      TAB..CR and FS..US, SPACE, NEL, NO-BREAK SPACE and the Unicode space separators. */
  predicate IsSpace(c: char) {
    || ('\U{9}' <= c <= '\U{D}')
    || ('\U{1C}' <= c <= '\U{20}')
    || c == '\U{85}' || c == '\U{A0}' || c == '\U{1680}'
    || ('\U{2000}' <= c <= '\U{200A}')
    || c == '\U{2028}' || c == '\U{2029}' || c == '\U{202F}' || c == '\U{205F}' || c == '\U{3000}'
  }

  /** Every character of `s` is whitespace (vacuously true of the empty string). */
  predicate AllSpace(s: string) {
    forall i :: 0 <= i < |s| ==> IsSpace(s[i])
  }

  /** Python `s.isspace()`: at least one character, and all of them whitespace. */
  predicate IsSpaceString(s: string) {
    |s| > 0 && AllSpace(s)
  }

  /** `is_not_blank(s)`: `bool(s and not s.isspace())`, where `None` and `""` are falsy. */
  predicate IsNotBlank(s: Option<string>) {
    s.Some? && s.value != "" && !IsSpaceString(s.value)
  }

  /** `is_blank(s)`: the negation of `is_not_blank`. */
  predicate IsBlank(s: Option<string>) {
    !IsNotBlank(s)
  }

  /** `s` without its leading whitespace. */
  function TrimStart(s: string): (r: string)
    ensures |r| <= |s| && r == s[|s| - |r|..]
    ensures AllSpace(s[..|s| - |r|])
    ensures r == [] || !IsSpace(r[0])
  {
    if s != [] && IsSpace(s[0]) then TrimStart(s[1..]) else s
  }

  /** `s` without its trailing whitespace. */
  function TrimEnd(s: string): (r: string)
    ensures |r| <= |s| && r == s[..|r|]
    ensures AllSpace(s[|r|..])
    ensures r == [] || !IsSpace(r[|r| - 1])
  {
    if s != [] && IsSpace(s[|s| - 1]) then
      var r := TrimEnd(s[..|s| - 1]);
      assert s[..|s| - 1][..|r|] == s[..|r|];
      assert forall i :: |r| <= i < |s| - 1 ==> s[i] == s[..|s| - 1][i];
      r
    else s
  }

  /** Python `s.strip()`: the slice of `s` left after dropping whitespace at both ends. */
  function Strip(s: string): (r: string)
    ensures |r| <= |s|
    ensures r == [] || (!IsSpace(r[0]) && !IsSpace(r[|r| - 1]))
    ensures r == [] <==> AllSpace(s)
  {
    StripBorders(s);
    StripEmptyIffAllSpace(s);
    TrimEnd(TrimStart(s))
  }

  /** What is left after trimming both ends neither starts nor ends with whitespace. */
  lemma StripBorders(s: string)
    ensures var r := TrimEnd(TrimStart(s)); r == [] || (!IsSpace(r[0]) && !IsSpace(r[|r| - 1]))
  {
    var t := TrimStart(s);
    var r := TrimEnd(t);
    if r != [] {
      assert r[0] == t[0];
    }
  }

  /** Trimming both ends leaves nothing exactly when every character is whitespace. */
  lemma StripEmptyIffAllSpace(s: string)
    ensures TrimEnd(TrimStart(s)) == [] <==> AllSpace(s)
  {
    var t := TrimStart(s);
    var r := TrimEnd(t);
    var k := |s| - |t|;
    if r == [] {
      assert t[|r|..] == s[k..];
      AllSpaceJoin(s, k);
    } else {
      StripBorders(s);
      assert s[k] == t[0] == r[0];
    }
  }

  /** A string whose two halves are all whitespace is all whitespace. */
  lemma AllSpaceJoin(s: string, k: nat)
    requires k <= |s| && AllSpace(s[..k]) && AllSpace(s[k..])
    ensures AllSpace(s)
  {
    forall i | 0 <= i < |s| ensures IsSpace(s[i]) {
      if i < k {
        assert s[..k][i] == s[i];
      } else {
        assert s[k..][i - k] == s[i];
      }
    }
  }

  /** Blank means absent or nothing left after stripping: the script's two spellings of
      "no value" (`is_blank(s)` and `s is None or len(s.strip()) == 0`) agree. */
  lemma BlankIffStripsToEmpty(s: Option<string>)
    ensures IsBlank(s) <==> (s.None? || |Strip(s.value)| == 0)
  {
  }

  /** A string is its own strip exactly when it does not start or end with whitespace. */
  lemma StripFixesTrimmed(s: string)
    ensures Strip(s) == s <==> (s == [] || (!IsSpace(s[0]) && !IsSpace(s[|s| - 1])))
  {
  }

  /** `sub` occurs in `s` as a contiguous run of characters. */
  predicate Contains(s: string, sub: string) {
    sub <= s || (s != [] && Contains(s[1..], sub))
  }

  /** Every string contains itself, so an exact name always passes a partial-name search. */
  lemma ContainsSelf(s: string)
    ensures Contains(s, s)
  {
  }
}
