/**
 * backend/app/routers/url_router.py: the hand-written URL features the
 * trained pipeline was fitted with, the trusted-domain whitelist, and the
 * `/url/predict` endpoint. The pipeline's probability is a parameter.
 */
module UrlRouter {
  import opened Common
  import opened Text

  const SUSPICIOUS_TLDS: seq<string> := ["xyz", "top", "online", "win", "club", "site", "info"]
  const SUSPICIOUS_KEYWORDS: seq<string> := ["free", "offer", "login", "secure", "update", "bonus", "cash"]

  const SAFE_DOMAINS: seq<string> := [
    "google.com", "github.com", "wikipedia.org", "stackoverflow.com", "microsoft.com",
    "apple.com", "linkedin.com", "amazon.com", "facebook.com", "twitter.com",
    "youtube.com", "reddit.com", "openai.com", "gitlab.com", "npmjs.com",
    "medium.com", "quora.com", "gmail.com", "icloud.com", "bing.com"]

  /** One row of `extract_numeric_features`. */
  datatype UrlFeatures = UrlFeatures(
    numHyphens: nat,
    numDigits: nat,
    suspiciousTld: nat,
    suspiciousKeywords: nat)

  /** The JSON body `predict` returns. */
  datatype UrlResponse =
    | UrlError(error: string)
    | UrlVerdict(url: string, result: string, confidence: real)

  predicate IsHyphen(c: char) { c == '-' }
  predicate NotUpper(c: char) { !IsUpper(c) }

  /** Lower-cases, drops every `http://`, `https://` and `www.`, then strips `/` at both ends. */
  function CleanUrl(url: string): (r: string)
    ensures |r| <= |url|
    ensures forall i :: 0 <= i < |r| ==> !IsUpper(r[i])
    ensures r == [] || (r[0] != '/' && r[|r| - 1] != '/')
  {
    var lower := ToLower(url);
    var noScheme := RemoveAll(RemoveAll(lower, "http://"), "https://");
    var noWww := RemoveAll(noScheme, "www.");
    assert AllSatisfy(noWww, NotUpper) by {
      ToLowerNoUpper(url);
      RemoveAllKeeps(lower, "http://", NotUpper);
      RemoveAllKeeps(RemoveAll(lower, "http://"), "https://", NotUpper);
      RemoveAllKeeps(noScheme, "www.", NotUpper);
    }
    StripKeeps(noWww, IsSlash, NotUpper);
    Strip(noWww, IsSlash)
  }

  /** With none of the three patterns present, cleaning only lower-cases and strips `/`. */
  lemma CleanUrlWithoutPatterns(url: string)
    requires !Contains(ToLower(url), "http://") && !Contains(ToLower(url), "https://")
    requires !Contains(ToLower(url), "www.")
    ensures CleanUrl(url) == Strip(ToLower(url), IsSlash)
  {
  }

  /** Every `www.` is dropped, not only a leading one. */
  lemma CleanUrlDropsInnerWww()
    ensures CleanUrl("a/www.b") == "a/b"
  {
    assert ToLower("a/www.b") == "a/www.b";
    assert !Contains("a/www.b", "http://") by {
      forall i | 0 <= i <= 7 ensures !OccursAt("http://", "a/www.b", i) {
        if i == 0 { assert "a/www.b"[0] != "http://"[0]; }
      }
    }
    assert !Contains("a/www.b", "https://");
    assert RemoveAll("a/www.b", "www.") == "a/b";
    assert Strip("a/b", IsSlash) == "a/b";
  }

  /**
   * A single left-to-right pass can join the pieces around a removed `www.`
   * into a new one, so a cleaned URL may still contain `www.`.
   */
  lemma RemovalCanRejoin()
    ensures RemoveAll("wwwww.w.", "www.") == "www."
  {
    assert RemoveAll("w.", "www.") == "w.";
    assert RemoveAll("www.w.", "www.") == "w.";
    assert RemoveAll("wwww.w.", "www.") == "ww.";
  }

  /** The top-level label: the text after the last `.`. */
  function Tld(clean: string): string {
    AfterLast(clean, '.')
  }

  /** How many of `keywords` occur in `s`, each counted once. */
  function CountPresent(s: string, keywords: seq<string>): (n: nat)
    ensures n <= |keywords|
    ensures n == |set k | 0 <= k < |keywords| && Contains(s, keywords[k])|
  {
    if keywords == [] then
      0
    else
      var init := keywords[..|keywords| - 1];
      var last := |keywords| - 1;
      var n := CountPresent(s, init);
      var before := set k | 0 <= k < |init| && Contains(s, init[k]);
      var all := set k | 0 <= k < |keywords| && Contains(s, keywords[k]);
      assert all == before + (if Contains(s, keywords[last]) then {last} else {});
      n + (if Contains(s, keywords[last]) then 1 else 0)
  }

  /** The feature row of one URL. */
  function FeatureRow(url: string): (f: UrlFeatures)
    ensures f.numHyphens + f.numDigits <= |CleanUrl(url)|
    ensures f.numDigits == CountIf(CleanUrl(url), IsDigit)
    ensures f.suspiciousTld <= 1
    ensures f.suspiciousKeywords <= |SUSPICIOUS_KEYWORDS|
    ensures f.suspiciousKeywords ==
      |set k | 0 <= k < |SUSPICIOUS_KEYWORDS| && Contains(CleanUrl(url), SUSPICIOUS_KEYWORDS[k])|
  {
    var clean := CleanUrl(url);
    CountIfDisjoint(clean, IsHyphen, IsDigit);
    UrlFeatures(
      CountIf(clean, IsHyphen),
      CountIf(clean, IsDigit),
      if Tld(clean) in SUSPICIOUS_TLDS then 1 else 0,
      CountPresent(clean, SUSPICIOUS_KEYWORDS))
  }

  /** `extract_numeric_features`: appends one row per URL. */
  method ExtractNumericFeatures(urls: seq<string>) returns (rows: seq<UrlFeatures>)
    ensures rows == Map(FeatureRow, urls)
  {
    rows := [];
    for k := 0 to |urls|
      invariant rows == Map(FeatureRow, urls[..k])
    {
      MapSnoc(FeatureRow, urls, k);
      rows := rows + [FeatureRow(urls[k])];
    }
    assert urls[..|urls|] == urls;
  }

  /** `num_hyphens` is the number of `-` characters of the cleaned URL. */
  lemma HyphensCounted(url: string)
    ensures FeatureRow(url).numHyphens == multiset(CleanUrl(url))['-']
  {
    CountIfIsMultiplicity(CleanUrl(url), IsHyphen, '-');
  }

  /**
   * `tld` holds no dot and ends the cleaned URL; it is the whole cleaned URL
   * when there is no dot, and otherwise follows the last dot.
   */
  lemma TldIsLastLabel(clean: string)
    ensures var tld := Tld(clean);
      && '.' !in tld
      && clean == clean[..|clean| - |tld|] + tld
      && ('.' !in clean ==> tld == clean)
      && ('.' in clean ==> |tld| < |clean| && clean[|clean| - |tld| - 1] == '.')
  {
    var tld := Tld(clean);
    if |tld| < |clean| {
      assert clean[|clean| - |tld| - 1] == '.';
    }
    if '.' in clean {
      var i :| 0 <= i < |clean| && clean[i] == '.';
      assert i < |clean| - |tld| || tld[i - (|clean| - |tld|)] == '.';
    }
  }

  /** `suspicious_tld` is 1 exactly when the last label is one of the seven listed. */
  lemma SuspiciousTldIff(url: string)
    ensures FeatureRow(url).suspiciousTld == 1 <==> Tld(CleanUrl(url)) in SUSPICIOUS_TLDS
  {
  }

  /** The form of the URL the whitelist is checked against. */
  function Normalise(url: string): (r: string)
    ensures |r| <= |url|
    ensures forall i :: 0 <= i < |r| ==> !IsUpper(r[i])
    ensures AllSatisfy(url, IsPySpace) ==> r == []
  {
    var trimmed := ToLower(Strip(url, IsPySpace));
    ToLowerNoUpper(Strip(url, IsPySpace));
    RemoveAllKeeps(trimmed, "http://", NotUpper);
    RemoveAllKeeps(RemoveAll(trimmed, "http://"), "https://", NotUpper);
    RemoveAllKeeps(RemoveAll(RemoveAll(trimmed, "http://"), "https://"), "www.", NotUpper);
    RemoveAll(RemoveAll(RemoveAll(trimmed, "http://"), "https://"), "www.")
  }

  /** With none of the three patterns present, the whitelist form is the trimmed, lower-cased URL. */
  lemma NormaliseWithoutPatterns(url: string)
    requires !Contains(ToLower(Strip(url, IsPySpace)), "http://")
    requires !Contains(ToLower(Strip(url, IsPySpace)), "https://")
    requires !Contains(ToLower(Strip(url, IsPySpace)), "www.")
    ensures Normalise(url) == ToLower(Strip(url, IsPySpace))
  {
  }

  /** Blanks around the URL are trimmed before matching: they never change the whitelist form. */
  lemma NormaliseIgnoresOuterSpace(url: string)
    ensures Normalise(Strip(url, IsPySpace)) == Normalise(url)
  {
    StripIdempotent(url, IsPySpace);
  }

  /** Upper and lower case are matched alike: the whitelist form ignores case. */
  lemma {:induction false} NormaliseIgnoresCase(url: string)
    ensures Normalise(ToLower(url)) == Normalise(url)
  {
    assert forall c :: IsPySpace(Lower(c)) == IsPySpace(c);
    StripLower(url, IsPySpace);
    ToLowerNoUpper(Strip(url, IsPySpace));
  }

  /** Some trusted domain is a substring of `normalised`. */
  predicate Whitelisted(normalised: string) {
    ContainsAny(normalised, SAFE_DOMAINS)
  }

  /**
   * The whitelist tests substrings, not domains: a host that merely embeds a
   * trusted name is accepted without asking the model.
   */
  lemma LookalikeWhitelisted()
    ensures Whitelisted("google.com.evil.xyz")
    ensures Whitelisted("notgithub.com")
  {
    assert OccursAt(SAFE_DOMAINS[0], "google.com.evil.xyz", 0);
    assert OccursAt(SAFE_DOMAINS[1], "notgithub.com", 3);
  }

  /** The `for safe_domain in SAFE_DOMAINS` loop of `predict`, which stops at the first match. */
  method IsWhitelisted(normalised: string) returns (safe: bool)
    ensures safe == Whitelisted(normalised)
  {
    for i := 0 to |SAFE_DOMAINS|
      invariant forall j :: 0 <= j < i ==> !Contains(normalised, SAFE_DOMAINS[j])
    {
      if Contains(normalised, SAFE_DOMAINS[i]) {
        return true;
      }
    }
    return false;
  }

  /**
   * `predict`: the model check, then the whitelist loop and its early return,
   * then the 0.5 threshold on the spam probability `probSpam` (or the exception
   * the pipeline raised).
   */
  method Predict(modelLoaded: bool, url: string, probSpam: Outcome<real>) returns (resp: UrlResponse)
    ensures !modelLoaded ==> resp == UrlError("Model not loaded.")
    ensures modelLoaded && Whitelisted(Normalise(url)) ==> resp == UrlVerdict(url, "Safe", 1.0)
    ensures modelLoaded && !Whitelisted(Normalise(url)) && probSpam.Raised? ==>
      resp == UrlError("Prediction failed: " + probSpam.message)
    ensures modelLoaded && !Whitelisted(Normalise(url)) && probSpam.Returned? ==>
      && resp.UrlVerdict? && resp.url == url && resp.confidence == probSpam.value
      && (resp.result == "Malicious" <==> probSpam.value >= 0.5)
      && (resp.result == "Safe" <==> probSpam.value < 0.5)
  {
    if !modelLoaded {
      return UrlError("Model not loaded.");
    }
    var safe := IsWhitelisted(Normalise(url));
    if safe {
      return UrlVerdict(url, "Safe", 1.0);
    }
    match probSpam {
      case Raised(message) =>
        resp := UrlError("Prediction failed: " + message);
      case Returned(p) =>
        var result := if p >= 0.5 then "Malicious" else "Safe";
        resp := UrlVerdict(url, result, p);
    }
  }
}
