/**
 * backend/app/routers/sms_router.py: the two "force Ham" heuristics and the
 * `/sms/predict` endpoint. The tokenizer and BERT classifier are a parameter:
 * the predicted class and its probability, or the exception they raised.
 */
module SmsRouter {
  import opened Common
  import opened Text

  /** `\b(otp|one-time password|one time password|pin|code)\b` */
  const OTP_WORDS: seq<string> := ["otp", "one-time password", "one time password", "pin", "code"]
  /** `\b(your|is|code|otp|pin)\b` */
  const OTP_CONTEXT_WORDS: seq<string> := ["your", "is", "code", "otp", "pin"]
  const MEETING_KEYWORDS: seq<string> :=
    ["meeting", "meet", "appointment", "schedule", "call", "pm", "am", "tomorrow", "today", "tonight"]
  const SPAM_KEYWORDS: seq<string> :=
    ["free", "win", "won", "claim", "prize", "congratulations", "earn", "offer", "cash", "voucher",
     "click", "apply now"]
  /** `\b(₹|inr|rs\b|rupee|rupees|lakh|crore|dollars|usd|money)\b`; `rs\b` then `\b` is `\brs\b`. */
  const MONEY_WORDS: seq<string> :=
    ["\U{20B9}", "inr", "rs", "rupee", "rupees", "lakh", "crore", "dollars", "usd", "money"]

  /** `\b\d{4,6}\b` matches the `n` characters at `i`. */
  predicate DigitTokenAt(t: string, i: int, n: int) {
    && 4 <= n <= 6 && 0 <= i && i + n <= |t|
    && Boundary(t, i) && Boundary(t, i + n)
    && forall p :: i <= p < i + n ==> IsDigit(t[p])
  }

  predicate HasDigitToken(t: string) {
    exists i, n | 0 <= i <= |t| && 4 <= n <= 6 :: DigitTokenAt(t, i, n)
  }

  /** `looks_like_otp`: an OTP word, or a 4-6 digit token beside a context word. */
  function LooksLikeOtp(text: string): (r: bool)
    ensures ContainsAnyWord(ToLower(text), OTP_WORDS) ==> r
    ensures r ==> ContainsAnyWord(ToLower(text), OTP_WORDS) || ContainsAnyWord(ToLower(text), OTP_CONTEXT_WORDS)
    ensures !HasDigitToken(ToLower(text)) ==> (r <==> ContainsAnyWord(ToLower(text), OTP_WORDS))
    ensures HasDigitToken(ToLower(text)) && ContainsAnyWord(ToLower(text), OTP_CONTEXT_WORDS) ==> r
  {
    var t := ToLower(text);
    if ContainsAnyWord(t, OTP_WORDS) then true
    else if HasDigitToken(t) && ContainsAnyWord(t, OTP_CONTEXT_WORDS) then true
    else false
  }

  /** One alternative of `http\S+|www\.\S+|https\S+` matches at `i`. */
  predicate UrlAt(t: string, i: int) {
    || (OccursAt("http", t, i) && i + 4 < |t| && !IsPySpace(t[i + 4]))
    || (OccursAt("www.", t, i) && i + 4 < |t| && !IsPySpace(t[i + 4]))
    || (OccursAt("https", t, i) && i + 5 < |t| && !IsPySpace(t[i + 5]))
  }

  predicate HasUrlPattern(t: string) {
    exists i | 0 <= i <= |t| :: UrlAt(t, i)
  }

  /**
   * `looks_like_meeting`: a meeting keyword as a substring, and no spam keyword,
   * link or money word.
   */
  function LooksLikeMeeting(text: string): (r: bool)
    ensures r ==> ContainsAny(ToLower(text), MEETING_KEYWORDS)
    ensures r ==> !ContainsAny(ToLower(text), SPAM_KEYWORDS) && !HasUrlPattern(ToLower(text))
    ensures r ==> !ContainsAnyWord(ToLower(text), MONEY_WORDS)
    ensures (&& ContainsAny(ToLower(text), MEETING_KEYWORDS)
             && !ContainsAny(ToLower(text), SPAM_KEYWORDS)
             && !HasUrlPattern(ToLower(text))
             && !ContainsAnyWord(ToLower(text), MONEY_WORDS)) ==> r
  {
    var t := ToLower(text);
    if !ContainsAny(t, MEETING_KEYWORDS) then false
    else if ContainsAny(t, SPAM_KEYWORDS) then false
    else if HasUrlPattern(t) then false
    else if ContainsAnyWord(t, MONEY_WORDS) then false
    else true
  }

  /** The probability-weighted class the classifier returned. */
  datatype Inference = Inference(predictedClass: int, confidence: real)

  /** The JSON body `predict_sms` returns, or the `HTTPException` it raises. */
  datatype SmsResponse =
    | HttpError(status: int, detail: string)
    | SmsPrediction(text: string, prediction: string, confidence: real)

  /**
   * `predict_sms`: the 500 and 400 guards, then the class-to-label mapping
   * (class 1 is Ham) and the two overrides applied in turn.
   */
  method PredictSms(modelLoaded: bool, text: string, inference: Outcome<Inference>)
    returns (resp: SmsResponse)
    ensures !modelLoaded ==> resp == HttpError(500, "Model or tokenizer not loaded.")
    ensures modelLoaded && AllSatisfy(text, IsPySpace) ==> resp == HttpError(400, "Text cannot be empty.")
    ensures modelLoaded && !AllSatisfy(text, IsPySpace) && inference.Raised? ==>
      resp == HttpError(500, "Prediction failed: " + inference.message)
    ensures modelLoaded && !AllSatisfy(text, IsPySpace) && inference.Returned? ==>
      && resp.SmsPrediction?
      && resp.text == text
      && resp.prediction in {"Spam", "Ham"}
      && resp.confidence == inference.value.confidence * 100.0
      && (resp.prediction == "Ham" <==>
            inference.value.predictedClass == 1 || LooksLikeOtp(text) || LooksLikeMeeting(text))
      && (resp.prediction == "Spam" <==>
            !(inference.value.predictedClass == 1 || LooksLikeOtp(text) || LooksLikeMeeting(text)))
  {
    if !modelLoaded {
      return HttpError(500, "Model or tokenizer not loaded.");
    }
    if Strip(text, IsPySpace) == [] {
      return HttpError(400, "Text cannot be empty.");
    }
    match inference {
      case Raised(message) =>
        resp := HttpError(500, "Prediction failed: " + message);
      case Returned(inf) =>
        var verdict := if inf.predictedClass == 1 then "Ham" else "Spam";
        if LooksLikeOtp(text) {
          verdict := "Ham";
        }
        if LooksLikeMeeting(text) {
          verdict := "Ham";
        }
        resp := SmsPrediction(text, verdict, inf.confidence * 100.0);
    }
  }

  /** The `https\S+` alternative adds nothing: whatever it matches, `http\S+` matches too. */
  lemma HttpsAlternativeRedundant(t: string, i: int)
    requires OccursAt("https", t, i) && i + 5 < |t| && !IsPySpace(t[i + 5])
    ensures OccursAt("http", t, i) && i + 4 < |t| && !IsPySpace(t[i + 4])
  {
    assert t[i..i + 4] == t[i..i + 5][..4];
  }

  /**
   * `\b₹\b` needs a word character on both sides of the sign, since the sign
   * itself is not a word character.
   */
  lemma RupeeSignNeedsWordNeighbours(t: string, i: int)
    ensures WordOccursAt("\U{20B9}", t, i) <==>
      0 <= i < |t| && t[i] == '\U{20B9}' && WordAt(t, i - 1) && WordAt(t, i + 1)
  {
    if 0 <= i < |t| && t[i] == '\U{20B9}' {
      assert t[i..i + 1] == "\U{20B9}";
    }
  }

  /** A spam keyword anywhere in the lower-cased text rules out the meeting override. */
  lemma SpamKeywordVetoesMeeting(text: string, k: int)
    requires 0 <= k < |SPAM_KEYWORDS| && Contains(ToLower(text), SPAM_KEYWORDS[k])
    ensures !LooksLikeMeeting(text)
  {
  }

  /** Without a meeting keyword the meeting override never fires. */
  lemma MeetingNeedsKeyword(text: string)
    requires forall k :: 0 <= k < |MEETING_KEYWORDS| ==> !Contains(ToLower(text), MEETING_KEYWORDS[k])
    ensures !LooksLikeMeeting(text)
  {
  }

  /** No string in `ps` occurs in `s` when each is longer than `s` or starts with a character `s` lacks. */
  lemma NoneContained(s: string, ps: seq<string>)
    requires forall k :: 0 <= k < |ps| ==> ps[k] != [] && (|ps[k]| > |s| || ps[k][0] !in s)
    ensures !ContainsAny(s, ps)
    ensures !ContainsAnyWord(s, ps)
  {
    forall k | 0 <= k < |ps| ensures !Contains(s, ps[k]) && !ContainsWord(s, ps[k]) {
      if ContainsWord(s, ps[k]) {
        WordIsSubstring(s, ps[k]);
      }
      if Contains(s, ps[k]) {
        ContainedIsShorter(s, ps[k]);
      }
    }
  }

  /**
   * Meeting keywords are matched as substrings: "spam" holds "am", has no spam
   * keyword, link or money word, and so is forced to Ham.
   */
  lemma SpamIsAMeeting()
    ensures LooksLikeMeeting("spam")
  {
    var t := ToLower("spam");
    assert t == "spam";
    assert OccursAt(MEETING_KEYWORDS[6], t, 2);
    NoneContained(t, SPAM_KEYWORDS);
    NoneContained(t, MONEY_WORDS);
    forall i | 0 <= i <= |t| ensures !UrlAt(t, i) {
    }
  }

  /** An OTP word found as a whole word marks the text as an OTP message. */
  lemma OtpWordExample()
    ensures LooksLikeOtp("Your OTP is 123456")
  {
    var t := ToLower("Your OTP is 123456");
    assert t[4..8] == " otp";
    assert WordOccursAt(OTP_WORDS[0], t, 5);
  }

  /** A 4-6 digit token beside a context word is enough, with no OTP word at all. */
  lemma DigitTokenExample()
    ensures LooksLikeOtp("is 1234")
  {
    var t := ToLower("is 1234");
    assert t == "is 1234";
    assert DigitTokenAt(t, 3, 4);
    assert WordOccursAt(OTP_CONTEXT_WORDS[1], t, 0);
  }

  /** "pin" inside "pink" is not a whole word, and "pink" has no digit token: no OTP. */
  lemma WordBoundaryExample()
    ensures !LooksLikeOtp("pink")
  {
    var t := ToLower("pink");
    assert t == "pink";
    forall i | 0 <= i <= |t| ensures !WordOccursAt("pin", t, i) {
      if OccursAt("pin", t, i) {
        assert t[i] == "pin"[0];
        assert i == 0;
        assert WordAt(t, 3);
      }
    }
    assert !ContainsWord(t, OTP_WORDS[3]);
    NoneContained(t, OTP_WORDS[..3]);
    NoneContained(t, [OTP_WORDS[4]]);
    forall k | 0 <= k < |OTP_WORDS| ensures !ContainsWord(t, OTP_WORDS[k]) {
      if k < 3 {
        assert OTP_WORDS[k] == OTP_WORDS[..3][k];
      } else if k == 4 {
        assert OTP_WORDS[k] == [OTP_WORDS[4]][0];
      }
    }
    forall i, n | 0 <= i <= |t| && 4 <= n <= 6 ensures !DigitTokenAt(t, i, n) {
      if 0 <= i < |t| {
        assert !IsDigit(t[i]);
      }
    }
  }
}
