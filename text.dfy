/**
 * Character classes and string operations used by the routers and the pages.
 *
 * Characters are Dafny `char`s. Letters, digits and word characters are the
 * ASCII ones; `Lower` folds only `A`-`Z`. The two whitespace classes differ on
 * purpose: JavaScript's `trim` and Python's `str.strip`/`\s` do not agree on
 * which characters are blanks.
 */
module Text {

  predicate IsDigit(c: char) { '0' <= c <= '9' }
  predicate IsUpper(c: char) { 'A' <= c <= 'Z' }
  predicate IsLower(c: char) { 'a' <= c <= 'z' }
  predicate IsLetter(c: char) { IsUpper(c) || IsLower(c) }
  predicate IsAlnum(c: char) { IsLetter(c) || IsDigit(c) }

  /** A character of the regular-expression class `\w` (ASCII letters, digits and `_`). */
  predicate IsWordChar(c: char) { IsAlnum(c) || c == '_' }

  /** White space as JavaScript's `String.prototype.trim` removes it. */
  predicate IsJsSpace(c: char) {
    || c == ' ' || '\t' <= c <= '\r'
    || c == '\U{A0}' || c == '\U{1680}' || '\U{2000}' <= c <= '\U{200A}'
    || c == '\U{2028}' || c == '\U{2029}' || c == '\U{202F}' || c == '\U{205F}'
    || c == '\U{3000}' || c == '\U{FEFF}'
  }

  /** White space as Python's `str.strip()` removes it and `\s` matches it. */
  predicate IsPySpace(c: char) {
    || c == ' ' || '\t' <= c <= '\r' || '\U{1C}' <= c <= '\U{1F}'
    || c == '\U{85}' || c == '\U{A0}' || c == '\U{1680}' || '\U{2000}' <= c <= '\U{200A}'
    || c == '\U{2028}' || c == '\U{2029}' || c == '\U{202F}' || c == '\U{205F}'
    || c == '\U{3000}'
  }

  /** The file-separator control characters are blanks to Python but not to JavaScript. */
  lemma BlankClassesDiffer()
    ensures IsPySpace('\U{1C}') && !IsJsSpace('\U{1C}')
    ensures IsJsSpace('\U{FEFF}') && !IsPySpace('\U{FEFF}')
  {
  }

  predicate IsSlash(c: char) { c == '/' }

  function Lower(c: char): (d: char)
    ensures !IsUpper(d)
    ensures IsUpper(c) || d == c
  {
    if IsUpper(c) then (c as int + 32) as char else c
  }

  /** `str.lower()` / `String.prototype.toLowerCase()` restricted to ASCII letters. */
  function ToLower(s: string): (r: string)
    ensures |r| == |s|
    ensures forall i :: 0 <= i < |s| ==> r[i] == Lower(s[i])
  {
    seq(|s|, i requires 0 <= i < |s| => Lower(s[i]))
  }

  lemma {:induction false} ToLowerNoUpper(s: string)
    ensures forall i :: 0 <= i < |s| ==> !IsUpper(ToLower(s)[i])
    ensures ToLower(ToLower(s)) == ToLower(s)
  {
    var t := ToLower(s);
    forall i | 0 <= i < |s| ensures ToLower(t)[i] == t[i] {
      assert !IsUpper(t[i]);
    }
  }

  /** `prefix` is an initial part of `s` (`startsWith`). */
  predicate StartsWith(s: string, prefix: string) {
    |prefix| <= |s| && s[..|prefix|] == prefix
  }

  /** `p` occurs in `s` starting at index `i`. */
  predicate OccursAt(p: string, s: string, i: int) {
    0 <= i && i + |p| <= |s| && s[i..i + |p|] == p
  }

  /** Python's `p in s` on strings, JavaScript's `s.includes(p)`. */
  predicate Contains(s: string, p: string) {
    exists i | 0 <= i <= |s| :: OccursAt(p, s, i)
  }

  /** Some string of `ps` is a substring of `s` (`any(k in s for k in ps)`). */
  predicate ContainsAny(s: string, ps: seq<string>) {
    exists k | 0 <= k < |ps| :: Contains(s, ps[k])
  }

  lemma ContainsTail(s: string, p: string)
    requires s != [] && Contains(s[1..], p)
    ensures Contains(s, p)
  {
    var i :| 0 <= i <= |s[1..]| && OccursAt(p, s[1..], i);
    assert s[i + 1..i + 1 + |p|] == s[1..][i..i + |p|];
    assert OccursAt(p, s, i + 1);
  }

  /** A string that occurs in `s` is no longer than `s`, and starts with a character of `s`. */
  lemma ContainedIsShorter(s: string, p: string)
    requires Contains(s, p) && p != []
    ensures |p| <= |s| && p[0] in s
  {
    var i :| 0 <= i <= |s| && OccursAt(p, s, i);
    assert s[i] == p[0];
  }

  /** `\w` at position `j` of `t`; positions outside `t` are not word characters. */
  predicate WordAt(t: string, j: int) {
    0 <= j < |t| && IsWordChar(t[j])
  }

  /** The regular-expression assertion `\b` at position `j`. */
  predicate Boundary(t: string, j: int) {
    WordAt(t, j - 1) != WordAt(t, j)
  }

  /** `\bw\b` matches at position `i` of `t`. */
  predicate WordOccursAt(w: string, t: string, i: int) {
    OccursAt(w, t, i) && Boundary(t, i) && Boundary(t, i + |w|)
  }

  /** `re.search(r'\bw\b', t)` succeeds. */
  predicate ContainsWord(t: string, w: string) {
    exists i | 0 <= i <= |t| :: WordOccursAt(w, t, i)
  }

  /** `re.search(r'\b(w1|w2|...)\b', t)` succeeds. */
  predicate ContainsAnyWord(t: string, ws: seq<string>) {
    exists k | 0 <= k < |ws| :: ContainsWord(t, ws[k])
  }

  /** A whole-word match is in particular a substring match. */
  lemma WordIsSubstring(t: string, w: string)
    requires ContainsWord(t, w)
    ensures Contains(t, w)
  {
  }

  /** Every character of `s` satisfies `f`; with a blank class, `!s.trim()` in JavaScript, `not s.strip()` in Python. */
  predicate AllSatisfy(s: string, f: char -> bool) {
    forall i :: 0 <= i < |s| ==> f(s[i])
  }

  /** Removes the longest prefix of characters satisfying `drop` (`lstrip`). */
  function StripLeft(s: string, drop: char -> bool): (r: string)
    ensures |r| <= |s| && r == s[|s| - |r|..]
    ensures r == [] || !drop(r[0])
    ensures forall i :: 0 <= i < |s| - |r| ==> drop(s[i])
  {
    if s != [] && drop(s[0]) then StripLeft(s[1..], drop) else s
  }

  /** Removes the longest suffix of characters satisfying `drop` (`rstrip`). */
  function StripRight(s: string, drop: char -> bool): (r: string)
    ensures |r| <= |s| && r == s[..|r|]
    ensures r == [] || !drop(r[|r| - 1])
    ensures forall i :: |r| <= i < |s| ==> drop(s[i])
  {
    if s != [] && drop(s[|s| - 1]) then StripRight(s[..|s| - 1], drop) else s
  }

  /**
   * Removes leading and trailing characters satisfying `drop`: JavaScript's `trim`
   * with `IsJsSpace`, Python's `strip()` with `IsPySpace`, `strip("/")` with `IsSlash`.
   */
  function Strip(s: string, drop: char -> bool): (r: string)
    ensures |r| <= |s|
    ensures r == [] <==> AllSatisfy(s, drop)
    ensures r != [] ==> !drop(r[0]) && !drop(r[|r| - 1])
    ensures exists k :: TrimmedAt(s, r, k, drop)
  {
    StripTrimmed(s, drop);
    StripRight(StripLeft(s, drop), drop)
  }

  lemma {:induction false} StripTrimmed(s: string, drop: char -> bool)
    ensures TrimmedAt(s, StripRight(StripLeft(s, drop), drop), |s| - |StripLeft(s, drop)|, drop)
  {
    var left := StripLeft(s, drop);
    var r := StripRight(left, drop);
    var k := |s| - |left|;
    assert r == s[k..k + |r|];
    assert forall i :: 0 <= i < k ==> drop(s[i]);
    forall i | k + |r| <= i < |s| ensures drop(s[i]) {
      assert s[i] == left[i - k];
    }
    assert TrimmedAt(s, r, k, drop);
  }

  /** `r` is the slice of `s` at `k`, and every character of `s` outside it satisfies `drop`. */
  predicate TrimmedAt(s: string, r: string, k: int, drop: char -> bool) {
    && 0 <= k && k + |r| <= |s| && r == s[k..k + |r|]
    && (forall i :: 0 <= i < k ==> drop(s[i]))
    && (forall i :: k + |r| <= i < |s| ==> drop(s[i]))
  }

  /** Stripping twice is stripping once. */
  lemma StripIdempotent(s: string, drop: char -> bool)
    ensures Strip(Strip(s, drop), drop) == Strip(s, drop)
  {
    var r := Strip(s, drop);
    if r != [] {
      assert StripLeft(r, drop) == r;
      assert StripRight(r, drop) == r;
    }
  }

  /** Lower-casing and stripping commute when case does not decide what is dropped. */
  lemma {:induction false} StripLeftLower(s: string, drop: char -> bool)
    requires forall c :: drop(Lower(c)) == drop(c)
    ensures StripLeft(ToLower(s), drop) == ToLower(StripLeft(s, drop))
    decreases |s|
  {
    if s != [] && drop(s[0]) {
      assert ToLower(s)[1..] == ToLower(s[1..]);
      StripLeftLower(s[1..], drop);
    } else if s != [] {
      assert !drop(ToLower(s)[0]);
    }
  }

  lemma {:induction false} StripRightLower(s: string, drop: char -> bool)
    requires forall c :: drop(Lower(c)) == drop(c)
    ensures StripRight(ToLower(s), drop) == ToLower(StripRight(s, drop))
    decreases |s|
  {
    if s != [] && drop(s[|s| - 1]) {
      assert ToLower(s)[..|s| - 1] == ToLower(s[..|s| - 1]);
      StripRightLower(s[..|s| - 1], drop);
    } else if s != [] {
      assert !drop(ToLower(s)[|s| - 1]);
    }
  }

  lemma StripLower(s: string, drop: char -> bool)
    requires forall c :: drop(Lower(c)) == drop(c)
    ensures Strip(ToLower(s), drop) == ToLower(Strip(s, drop))
  {
    StripLeftLower(s, drop);
    StripRightLower(StripLeft(s, drop), drop);
  }

  /** Stripping keeps a property every character of the input has. */
  lemma StripKeeps(s: string, drop: char -> bool, f: char -> bool)
    requires AllSatisfy(s, f)
    ensures AllSatisfy(Strip(s, drop), f)
  {
    var left := StripLeft(s, drop);
    assert AllSatisfy(left, f) by {
      forall i | 0 <= i < |left| ensures f(left[i]) {
        assert left[i] == s[|s| - |left| + i];
      }
    }
  }

  /** Number of characters of `s` satisfying `f` (`sum(f(c) for c in s)`). */
  function CountIf(s: string, f: char -> bool): (n: nat)
    ensures n <= |s|
    ensures n == |s| <==> AllSatisfy(s, f)
  {
    if s == [] then 0 else CountIf(s[..|s| - 1], f) + (if f(s[|s| - 1]) then 1 else 0)
  }

  lemma {:induction false} CountIfAppend(a: string, b: string, f: char -> bool)
    ensures CountIf(a + b, f) == CountIf(a, f) + CountIf(b, f)
    decreases |b|
  {
    if b != [] {
      assert (a + b)[..|a + b| - 1] == a + b[..|b| - 1];
      CountIfAppend(a, b[..|b| - 1], f);
    } else {
      assert a + b == a;
    }
  }

  /** Counting the occurrences of one character is its multiplicity in the multiset of `s`. */
  lemma {:induction false} CountIfIsMultiplicity(s: string, f: char -> bool, x: char)
    requires forall c :: f(c) <==> c == x
    ensures CountIf(s, f) == multiset(s)[x]
  {
    if s != [] {
      CountIfIsMultiplicity(s[..|s| - 1], f, x);
      assert s == s[..|s| - 1] + [s[|s| - 1]];
    }
  }

  /** Characters of two disjoint classes together are no more than the whole string. */
  lemma {:induction false} CountIfDisjoint(s: string, f: char -> bool, g: char -> bool)
    requires forall c :: !(f(c) && g(c))
    ensures CountIf(s, f) + CountIf(s, g) <= |s|
  {
    if s != [] {
      CountIfDisjoint(s[..|s| - 1], f, g);
    }
  }

  /**
   * Python's `s.replace(p, "")`: scans left to right and drops every
   * non-overlapping occurrence of `p`.
   */
  function RemoveAll(s: string, p: string): (r: string)
    requires p != []
    ensures |r| <= |s|
    ensures |r| < |s| <==> Contains(s, p)
    ensures !Contains(s, p) ==> r == s
    decreases |s|
  {
    if |s| < |p| then
      assert !Contains(s, p);
      s
    else if s[..|p|] == p then
      assert OccursAt(p, s, 0);
      RemoveAll(s[|p|..], p)
    else
      var rest := RemoveAll(s[1..], p);
      assert Contains(s[1..], p) <==> Contains(s, p) by {
        if Contains(s[1..], p) { ContainsTail(s, p); }
        if Contains(s, p) { ContainsNotAtStart(s, p); }
      }
      [s[0]] + rest
  }

  /** An occurrence that is not at the start of `s` is an occurrence in its tail. */
  lemma ContainsNotAtStart(s: string, p: string)
    requires Contains(s, p) && !OccursAt(p, s, 0)
    ensures s != [] && Contains(s[1..], p)
  {
    var i :| 0 <= i <= |s| && OccursAt(p, s, i);
    assert i >= 1;
    assert s[1..][i - 1..i - 1 + |p|] == s[i..i + |p|];
    assert OccursAt(p, s[1..], i - 1);
  }

  /**
   * `replace` drops the first occurrence and carries on after it: when `p`
   * occurs at `i` and nowhere earlier (no occurrence fits in the first
   * `i + |p| - 1` characters), everything before `i` is kept and the
   * occurrence at `i` is removed.
   */
  lemma {:induction false} RemoveAllFirst(s: string, p: string, i: int)
    requires p != [] && OccursAt(p, s, i) && !Contains(s[..i + |p| - 1], p)
    ensures RemoveAll(s, p) == s[..i] + RemoveAll(s[i + |p|..], p)
    decreases i
  {
    if i == 0 {
      RemoveAllAtStart(s, p);
    } else {
      OccurrenceInTail(s, p, i);
      RemoveAllFirst(s[1..], p, i - 1);
      RemoveAllSkip(s, p, i);
    }
  }

  lemma {:induction false} RemoveAllAtStart(s: string, p: string)
    requires p != [] && OccursAt(p, s, 0)
    ensures RemoveAll(s, p) == s[..0] + RemoveAll(s[0 + |p|..], p)
  {
    assert s[..|p|] == p;
    assert s[..0] + RemoveAll(s[|p|..], p) == RemoveAll(s[|p|..], p);
  }

  /** One step of `RemoveAllFirst`: a first character that starts no occurrence is kept. */
  lemma {:induction false} RemoveAllSkip(s: string, p: string, i: int)
    requires p != [] && 0 < i && OccursAt(p, s, i) && !OccursAt(p, s, 0)
    requires RemoveAll(s[1..], p) == s[1..][..i - 1] + RemoveAll(s[1..][i - 1 + |p|..], p)
    ensures RemoveAll(s, p) == s[..i] + RemoveAll(s[i + |p|..], p)
  {
    RemoveAllKeepsHead(s, p);
    assert s[1..][i - 1 + |p|..] == s[i + |p|..];
    ConsSplit(s, i, RemoveAll(s[i + |p|..], p));
  }

  /** A first character that starts no occurrence is kept. */
  lemma {:induction false} RemoveAllKeepsHead(s: string, p: string)
    requires p != [] && s != [] && !OccursAt(p, s, 0)
    ensures RemoveAll(s, p) == [s[0]] + RemoveAll(s[1..], p)
  {
    if |s| < |p| {
      assert !Contains(s[1..], p) by {
        if Contains(s[1..], p) { ContainedIsShorter(s[1..], p); }
      }
      assert s == [s[0]] + s[1..];
    } else {
      assert s[..|p|] != p;
    }
  }

  lemma ConsSplit(s: string, i: int, rest: string)
    requires 0 < i <= |s|
    ensures [s[0]] + (s[1..][..i - 1] + rest) == s[..i] + rest
  {
    assert [s[0]] + s[1..][..i - 1] == s[..i];
  }

  /** Shifting by one character: the occurrence at `i` and the absence before it carry over to the tail. */
  lemma {:induction false} OccurrenceInTail(s: string, p: string, i: int)
    requires p != [] && 0 < i && OccursAt(p, s, i) && !Contains(s[..i + |p| - 1], p)
    ensures OccursAt(p, s[1..], i - 1) && !Contains(s[1..][..i - 1 + |p| - 1], p)
    ensures !OccursAt(p, s, 0)
  {
    var before := s[..i + |p| - 1];
    assert s[1..][i - 1..i - 1 + |p|] == s[i..i + |p|];
    assert s[1..][..i - 1 + |p| - 1] == before[1..];
    if Contains(before[1..], p) {
      ContainsTail(before, p);
    }
    assert s[0..|p|] == before[0..|p|];
    assert !OccursAt(p, before, 0);
  }

  /** Removing occurrences keeps a property every character of the input has. */
  lemma {:induction false} RemoveAllKeeps(s: string, p: string, f: char -> bool)
    requires p != [] && AllSatisfy(s, f)
    ensures AllSatisfy(RemoveAll(s, p), f)
    decreases |s|
  {
    if |s| < |p| {
    } else if s[..|p|] == p {
      RemoveAllKeeps(s[|p|..], p, f);
    } else {
      RemoveAllKeeps(s[1..], p, f);
    }
  }

  /** The text after the last `sep` (Python's `s.split(sep)[-1]`). */
  function AfterLast(s: string, sep: char): (r: string)
    ensures |r| <= |s| && r == s[|s| - |r|..]
    ensures forall i :: 0 <= i < |r| ==> r[i] != sep
    ensures |r| < |s| ==> s[|s| - |r| - 1] == sep
  {
    if s == [] then []
    else if s[|s| - 1] == sep then []
    else AfterLast(s[..|s| - 1], sep) + [s[|s| - 1]]
  }

  /** The text before the first `sep` (JavaScript's `s.split(sep)[0]`). */
  function BeforeFirst(s: string, sep: char): (r: string)
    ensures |r| <= |s| && r == s[..|r|]
    ensures forall i :: 0 <= i < |r| ==> r[i] != sep
    ensures |r| < |s| ==> s[|r|] == sep
  {
    if s == [] then []
    else if s[0] == sep then []
    else [s[0]] + BeforeFirst(s[1..], sep)
  }
}
