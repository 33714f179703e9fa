/** Optional values, used for parse results, regex group captures and the
    "None means all" filters of the analyzers. */
module Options {
  datatype Option<T> = None | Some(value: T)
}

/** Character classes and substring matching over `string` (a `seq<char>`).
    These are the building blocks of the hand-coded regular expressions:
    `\d` is an ASCII digit, `\s` is ASCII whitespace `[ \t\n\r\f\v]`, `\w`
    is `[A-Za-z0-9_]`, and case-insensitive matching folds ASCII letters. */
module Text {

  predicate IsDigit(c: char) {
    '0' <= c <= '9'
  }

  /** `\s`: space, or one of tab, line feed, vertical tab, form feed, carriage return. */
  predicate IsSpace(c: char) {
    c == ' ' || '\t' <= c <= '\r'
  }

  /** `\w`, the characters a `\b` boundary separates from the rest. */
  predicate IsWordChar(c: char) {
    'a' <= c <= 'z' || 'A' <= c <= 'Z' || IsDigit(c) || c == '_'
  }

  /** ASCII lower-casing, standing for Python's `str.lower()` and `re.IGNORECASE`. */
  function FoldChar(c: char): char {
    if 'A' <= c <= 'Z' then (c as int + 32) as char else c
  }

  function Fold(s: string): (r: string)
    ensures |r| == |s|
    ensures forall i | 0 <= i < |s| :: r[i] == FoldChar(s[i])
  {
    seq(|s|, i requires 0 <= i < |s| => FoldChar(s[i]))
  }

  predicate AllDigits(s: string) {
    forall k | 0 <= k < |s| :: IsDigit(s[k])
  }

  /** `p` occurs in `s` at index `i`. */
  predicate StartsAt(s: string, i: int, p: string) {
    0 <= i && i + |p| <= |s| && s[i..i + |p|] == p
  }

  /** `p` occurs in `s` at index `i`, ignoring ASCII case. */
  predicate StartsAtFolded(s: string, i: int, p: string) {
    0 <= i && i + |p| <= |s| && Fold(s[i..i + |p|]) == Fold(p)
  }

  /** Python's `p in s`. */
  predicate Contains(s: string, p: string) {
    exists i | 0 <= i <= |s| - |p| :: StartsAt(s, i, p)
  }

  predicate ContainsFolded(s: string, p: string) {
    exists i | 0 <= i <= |s| - |p| :: StartsAtFolded(s, i, p)
  }

  /** Searching without case is searching the lower-cased text for the
      lower-cased pattern: `p.lower() in s.lower()`. */
  lemma FoldedSearch(p: string)
    ensures forall s :: ContainsFolded(s, p) <==> Contains(Fold(s), Fold(p))
  {
    forall s ensures ContainsFolded(s, p) <==> Contains(Fold(s), Fold(p)) {
      forall i | 0 <= i <= |s| - |p|
        ensures StartsAtFolded(s, i, p) <==> StartsAt(Fold(s), i, Fold(p))
      {
        assert Fold(s)[i..i + |p|] == Fold(s[i..i + |p|]);
      }
    }
  }

  /** No word character touches index `i` from the left. */
  predicate LeftBoundary(s: string, i: int)
    requires 0 <= i <= |s|
  {
    i == 0 || !IsWordChar(s[i - 1])
  }

  /** No word character touches index `i` from the right. */
  predicate RightBoundary(s: string, i: int)
    requires 0 <= i <= |s|
  {
    i == |s| || !IsWordChar(s[i])
  }

  /** `\bw\b` matching at `i`, for a word `w` that starts and ends with a word character. */
  predicate WordAt(s: string, i: int, w: string) {
    StartsAt(s, i, w) && LeftBoundary(s, i) && RightBoundary(s, i + |w|)
  }

  predicate WordAtFolded(s: string, i: int, w: string) {
    StartsAtFolded(s, i, w) && LeftBoundary(s, i) && RightBoundary(s, i + |w|)
  }

  /** The end of the maximal run of whitespace that starts at `i`: the
      position a greedy `\s*` reaches. */
  function SkipSpaces(s: string, i: nat): (j: nat)
    requires i <= |s|
    ensures i <= j <= |s|
    ensures forall k | i <= k < j :: IsSpace(s[k])
    ensures j < |s| ==> !IsSpace(s[j])
    decreases |s| - i
  {
    if i < |s| && IsSpace(s[i]) then SkipSpaces(s, i + 1) else i
  }

  /** The end of the maximal run of digits that starts at `i`: the position
      a greedy `\d*` reaches. */
  function SkipDigits(s: string, i: nat): (j: nat)
    requires i <= |s|
    ensures i <= j <= |s|
    ensures forall k | i <= k < j :: IsDigit(s[k])
    ensures j < |s| ==> !IsDigit(s[j])
    decreases |s| - i
  {
    if i < |s| && IsDigit(s[i]) then SkipDigits(s, i + 1) else i
  }
}
