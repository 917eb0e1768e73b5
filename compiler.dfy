/** The assembler's line cleaner (src/compiler.py): `get_meaningful_token`
    drops a `;` comment and the whitespace around what is left. */
module Compiler {

  /** The characters Python's `str.isspace` accepts, and so the ones `strip()`
      with no argument removes. */
  predicate IsSpace(c: char)
  {
    '\t' <= c <= '\r' || '\U{001C}' <= c <= ' ' || c == '\U{0085}' || c == '\U{00A0}' || c == '\U{1680}'
    || '\U{2000}' <= c <= '\U{200A}' || c == '\U{2028}' || c == '\U{2029}' || c == '\U{202F}'
    || c == '\U{205F}' || c == '\U{3000}'
  }

  /** Neither the first nor the last character is whitespace. */
  predicate Trimmed(s: string)
  {
    s == [] || (!IsSpace(s[0]) && !IsSpace(s[|s| - 1]))
  }

  /** `line.split(";", 1)[0]`: the text before the first `;`, or all of it. */
  function BeforeSemicolon(s: string): (r: string)
    ensures r <= s
    ensures forall k :: 0 <= k < |r| ==> r[k] != ';'
    ensures |r| < |s| ==> s[|r|] == ';'
    ensures forall k :: 0 <= k < |s| && s[k] == ';' ==> |r| <= k
  {
    if s == [] || s[0] == ';' then []
    else [s[0]] + BeforeSemicolon(s[1..])
  }

  /** The first index at or after `i` that does not hold whitespace, or the
      end of the string. */
  function SkipSpace(s: string, i: nat): (j: nat)
    requires i <= |s|
    ensures i <= j <= |s|
    ensures forall k :: i <= k < j ==> IsSpace(s[k])
    ensures j == |s| || !IsSpace(s[j])
    decreases |s| - i
  {
    if i < |s| && IsSpace(s[i]) then SkipSpace(s, i + 1) else i
  }

  /** Walking back from `j`, the end of the last non-whitespace character at or
      after `lo`, or `lo` itself when there is none. */
  function SkipSpaceBack(s: string, lo: nat, j: nat): (e: nat)
    requires lo <= j <= |s|
    ensures lo <= e <= j
    ensures forall k :: e <= k < j ==> IsSpace(s[k])
    ensures e == lo || !IsSpace(s[e - 1])
  {
    if lo < j && IsSpace(s[j - 1]) then SkipSpaceBack(s, lo, j - 1) else j
  }

  /** `r` is the slice of `s` starting at `i`, and only whitespace lies
      outside it. */
  predicate SpaceAround(s: string, r: string, i: int)
  {
    0 <= i <= |s| - |r| && r == s[i..i + |r|]
    && (forall k :: 0 <= k < i ==> IsSpace(s[k]))
    && (forall k :: i + |r| <= k < |s| ==> IsSpace(s[k]))
  }

  /** `str.strip()`: a slice with whitespace only outside it and at neither of
      its ends. */
  function Strip(s: string): (r: string)
    ensures Trimmed(r)
    ensures exists i :: SpaceAround(s, r, i)
  {
    var i := SkipSpace(s, 0);
    var e := SkipSpaceBack(s, i, |s|);
    assert SpaceAround(s, s[i..e], i);
    s[i..e]
  }

  /** get_meaningful_token: the text before the first `;`, stripped. */
  function GetMeaningfulToken(line: string): (r: string)
    ensures ';' !in r
    ensures Trimmed(r)
  {
    Strip(BeforeSemicolon(line))
  }

  /** `r` is the slice of `line` starting at `i`, and no `;` comes before
      its end. */
  predicate SliceBeforeSemicolon(line: string, r: string, i: int)
  {
    0 <= i <= |line| - |r| && r == line[i..i + |r|]
    && forall j :: 0 <= j < i + |r| ==> line[j] != ';'
  }

  /** The token is a contiguous piece of the line that ends before its first
      `;`. */
  lemma TokenIsSliceBeforeSemicolon(line: string)
    ensures exists i :: SliceBeforeSemicolon(line, GetMeaningfulToken(line), i)
  {
    var b := BeforeSemicolon(line);
    var r := Strip(b);
    assert r == GetMeaningfulToken(line);
    var i :| SpaceAround(b, r, i);
    assert b == line[..|b|];
    assert SliceBeforeSemicolon(line, r, i);
  }

  /** A string with no `;` loses nothing to the comment split. */
  lemma {:induction false} NoSemicolonKept(s: string)
    requires ';' !in s
    ensures BeforeSemicolon(s) == s
  {
    if s != [] {
      NoSemicolonKept(s[1..]);
      assert [s[0]] + s[1..] == s;
    }
  }

  /** Without a `;` the token is the stripped line. */
  lemma LineWithoutComment(line: string)
    requires ';' !in line
    ensures GetMeaningfulToken(line) == Strip(line)
  {
    NoSemicolonKept(line);
  }

  /** Everything up to the first non-whitespace character is cut off when
      that character is `;`: the token is empty. */
  lemma {:induction false} CommentLineIsEmpty(line: string, k: int)
    requires 0 <= k < |line| && line[k] == ';'
    requires forall i :: 0 <= i < k ==> IsSpace(line[i])
    ensures GetMeaningfulToken(line) == []
  {
    var b := BeforeSemicolon(line);
    assert forall i :: 0 <= i < |b| ==> b[i] == line[i];
    assert forall i :: 0 <= i < |b| ==> IsSpace(b[i]);
  }

  /** Strip leaves a string with no whitespace at its ends as it is. */
  lemma StripTrimmed(s: string)
    requires Trimmed(s)
    ensures Strip(s) == s
  {
    assert SkipSpace(s, 0) == 0;
    assert s[0..|s|] == s;
  }

  /** Cleaning a token again changes nothing. */
  lemma Idempotent(line: string)
    ensures GetMeaningfulToken(GetMeaningfulToken(line)) == GetMeaningfulToken(line)
  {
    var r := GetMeaningfulToken(line);
    NoSemicolonKept(r);
    StripTrimmed(r);
  }
}
