/**
 * `NumericFeatureExtractor.transform` of backend/app/utils/features.py: one
 * row of numeric features per phone-number string. The floating-point
 * `digit_entropy` column is not modelled.
 */
module PhoneFeatures {
  import opened Text

  /** One row of the extractor's output, in its column order (without `digit_entropy`). */
  datatype Features = Features(
    length: nat,
    starts140: nat,
    starts1800: nat,
    starts91: nat,
    uniqueDigits: nat,
    maxRunLen: nat,
    sumMod10: nat,
    hasTripleRepeat: nat,
    lastDigitEven: nat)

  /** A string the extractor accepts: `int(c)` and `s[-1]` raise on anything else. */
  predicate IsPhoneDigits(s: string) {
    s != [] && forall i :: 0 <= i < |s| ==> IsDigit(s[i])
  }

  function Flag(b: bool): nat { if b then 1 else 0 }

  function DigitValue(c: char): (v: nat)
    requires IsDigit(c)
    ensures v <= 9
  {
    c as int - '0' as int
  }

  /** Sum of the digit values of `s`. */
  function DigitSum(s: string): (n: nat)
    requires forall i :: 0 <= i < |s| ==> IsDigit(s[i])
    ensures n <= 9 * |s|
  {
    if s == [] then 0 else DigitSum(s[..|s| - 1]) + DigitValue(s[|s| - 1])
  }

  /** The set of distinct characters of `s` (`set(s)`). */
  function Chars(s: string): set<char> {
    set i | 0 <= i < |s| :: s[i]
  }

  /** `s[lo..hi]` is a non-empty block of one repeated character. */
  ghost predicate SameRun(s: string, lo: int, hi: int) {
    0 <= lo < hi <= |s| && forall p :: lo <= p < hi ==> s[p] == s[lo]
  }

  /** `s` has a block of `k` equal adjacent characters. */
  ghost predicate HasRunOf(s: string, k: int) {
    exists lo, hi :: SameRun(s, lo, hi) && hi - lo == k
  }

  /**
   * `r` is the length of the longest block of equal adjacent characters of `s`;
   * the extractor starts its count at 1, so an empty string gets 1 too.
   */
  ghost predicate IsLongestRun(s: string, r: int) {
    && r >= 1
    && (s == [] ==> r == 1)
    && (s != [] ==> HasRunOf(s, r))
    && forall lo, hi :: SameRun(s, lo, hi) ==> hi - lo <= r
  }

  /** The regular expression `(\d)\1\1`: a digit followed by two copies of itself. */
  predicate TripleAt(s: string, i: int) {
    0 <= i && i + 2 < |s| && IsDigit(s[i]) && s[i + 1] == s[i] && s[i + 2] == s[i]
  }

  predicate HasTripleRepeat(s: string) {
    exists i | 0 <= i < |s| :: TripleAt(s, i)
  }

  /** What each column of a row holds for the string `s`. */
  ghost predicate FeaturesOf(s: string, f: Features)
    requires IsPhoneDigits(s)
  {
    && f.length == |s|
    && f.starts140 == Flag(StartsWith(s, "140"))
    && f.starts1800 == Flag(StartsWith(s, "1800"))
    && f.starts91 == Flag(StartsWith(s, "91"))
    && f.uniqueDigits == |Chars(s)|
    && IsLongestRun(s, f.maxRunLen)
    && f.sumMod10 == DigitSum(s) % 10
    && f.hasTripleRepeat == Flag(HasTripleRepeat(s))
    && f.lastDigitEven == Flag(DigitValue(s[|s| - 1]) % 2 == 0)
  }

  /** A block ending at `hi` that extends over position `hi - 1` starts where the block ending there starts, or later. */
  lemma RunInside(s: string, lo: int, hi: int, start: int)
    requires SameRun(s, lo, hi) && 0 <= start < hi
    requires start == 0 || s[start - 1] != s[start]
    requires forall p :: start <= p < hi ==> s[p] == s[start]
    ensures start <= lo
  {
    assert s[start] == s[lo];
  }

  /** The inner `for i in range(1, L)` loop of `transform`. */
  method MaxRunLength(s: string) returns (maxRun: nat)
    ensures IsLongestRun(s, maxRun)
  {
    maxRun := 1;
    var cur := 1;
    if s != [] {
      assert SameRun(s, 0, 1);
    }
    var i := 1;
    while i < |s|
      invariant s != [] ==> 1 <= i <= |s|
      invariant s != [] ==> 1 <= cur <= i && cur <= maxRun
      invariant s != [] ==> SameRun(s, i - cur, i)
      invariant s != [] ==> (i - cur == 0 || s[i - cur - 1] != s[i - cur])
      invariant s != [] ==> HasRunOf(s, maxRun)
      invariant maxRun >= 1 && (s == [] ==> maxRun == 1)
      invariant forall lo, hi :: SameRun(s, lo, hi) && hi <= i ==> hi - lo <= maxRun
    {
      if s[i] == s[i - 1] {
        cur := cur + 1;
        assert SameRun(s, i + 1 - cur, i + 1);
        if cur > maxRun {
          maxRun := cur;
        }
      } else {
        cur := 1;
        assert SameRun(s, i, i + 1);
      }
      forall lo, hi | SameRun(s, lo, hi) && hi == i + 1
        ensures hi - lo <= maxRun
      {
        RunInside(s, lo, hi, i + 1 - cur);
      }
      i := i + 1;
    }
  }

  /** The body of `transform`'s outer loop for one string. */
  method ExtractRow(s: string) returns (f: Features)
    requires IsPhoneDigits(s)
    ensures FeaturesOf(s, f)
  {
    var maxRun := MaxRunLength(s);
    f := Features(
      |s|,
      Flag(StartsWith(s, "140")),
      Flag(StartsWith(s, "1800")),
      Flag(StartsWith(s, "91")),
      |Chars(s)|,
      maxRun,
      DigitSum(s) % 10,
      Flag(HasTripleRepeat(s)),
      Flag(DigitValue(s[|s| - 1]) % 2 == 0));
  }

  /** `transform`: one row per input string, in input order. */
  method Transform(xs: seq<string>) returns (rows: seq<Features>)
    requires forall i :: 0 <= i < |xs| ==> IsPhoneDigits(xs[i])
    ensures |rows| == |xs|
    ensures forall i :: 0 <= i < |xs| ==> FeaturesOf(xs[i], rows[i])
  {
    rows := [];
    for k := 0 to |xs|
      invariant |rows| == k
      invariant forall i :: 0 <= i < k ==> FeaturesOf(xs[i], rows[i])
    {
      var f := ExtractRow(xs[k]);
      rows := rows + [f];
    }
  }

  /** The columns determine one row: two rows meeting `FeaturesOf` are equal. */
  lemma FeaturesOfUnique(s: string, f: Features, g: Features)
    requires IsPhoneDigits(s) && FeaturesOf(s, f) && FeaturesOf(s, g)
    ensures f == g
  {
    var lo, hi :| SameRun(s, lo, hi) && hi - lo == f.maxRunLen;
    var lo', hi' :| SameRun(s, lo', hi') && hi' - lo' == g.maxRunLen;
  }

  lemma {:induction false} CharsBound(s: string)
    ensures |Chars(s)| <= |s|
    ensures s != [] ==> |Chars(s)| >= 1
  {
    if s != [] {
      var t := s[..|s| - 1];
      CharsBound(t);
      assert Chars(s) == Chars(t) + {s[|s| - 1]} by {
        forall c | c in Chars(s) ensures c in Chars(t) + {s[|s| - 1]} {
          var i :| 0 <= i < |s| && s[i] == c;
          if i < |s| - 1 { assert t[i] == c; }
        }
      }
      assert s[0] in Chars(s);
    }
  }

  /** The ten decimal digits. */
  lemma DigitCharsBound(cs: set<char>)
    requires forall c :: c in cs ==> IsDigit(c)
    ensures |cs| <= 10
  {
    var digits := {'0', '1', '2', '3', '4', '5', '6', '7', '8', '9'};
    assert cs <= digits by {
      forall c | c in cs ensures c in digits {
        assert '0' <= c <= '9';
      }
    }
    assert |digits| == 10;
    SubsetCard(cs, digits);
  }

  lemma {:induction false} SubsetCard<T>(a: set<T>, b: set<T>)
    requires a <= b
    ensures |a| <= |b|
    decreases |b|
  {
    if a != {} {
      var x :| x in a;
      SubsetCard(a - {x}, b - {x});
    }
  }

  /** Column bounds of a row: the counts stay within the string and the digits. */
  lemma FeatureBounds(s: string, f: Features)
    requires IsPhoneDigits(s) && FeaturesOf(s, f)
    ensures 1 <= f.uniqueDigits <= f.length && f.uniqueDigits <= 10
    ensures 1 <= f.maxRunLen <= f.length
    ensures f.sumMod10 <= 9
    ensures f.starts140 <= 1 && f.starts1800 <= 1 && f.starts91 <= 1
    ensures f.hasTripleRepeat <= 1 && f.lastDigitEven <= 1
    ensures f.starts1800 == 1 ==> f.starts140 == 0 && f.starts91 == 0
  {
    CharsBound(s);
    DigitCharsBound(Chars(s));
    var lo, hi :| SameRun(s, lo, hi) && hi - lo == f.maxRunLen;
    if StartsWith(s, "1800") {
      assert s[1] == "1800"[1];
      assert s[..3][1] == '8';
      assert s[..2][0] == '1';
    }
  }

  /** `has_triple_repeat` is 1 exactly when the longest block has at least three characters. */
  lemma TripleRepeatIffLongRun(s: string, f: Features)
    requires IsPhoneDigits(s) && FeaturesOf(s, f)
    ensures f.hasTripleRepeat == 1 <==> f.maxRunLen >= 3
  {
    if HasTripleRepeat(s) {
      var i :| 0 <= i < |s| && TripleAt(s, i);
      assert SameRun(s, i, i + 3);
    }
    if f.maxRunLen >= 3 {
      var lo, hi :| SameRun(s, lo, hi) && hi - lo == f.maxRunLen;
      assert s[lo + 1] == s[lo] && s[lo + 2] == s[lo];
      assert TripleAt(s, lo);
    }
  }

  /** `last_digit_even` is 1 exactly when the last character is one of 0, 2, 4, 6, 8. */
  lemma LastDigitEvenIff(s: string, f: Features)
    requires IsPhoneDigits(s) && FeaturesOf(s, f)
    ensures f.lastDigitEven == 1 <==> s[|s| - 1] in {'0', '2', '4', '6', '8'}
  {
  }
}
