/**
 * backend/app/routers/phone_router.py: the `/phone/predict` endpoint. The
 * scikit-learn pipeline is a parameter: what `predict`, `predict_proba` and
 * `classes_` give for the cleaned number.
 */
module PhoneRouter {
  import opened Common
  import opened Text
  import PhoneFeatures

  /** `re.sub(r"\D", "", s)`: keep the digits, in order. */
  function DigitsOnly(s: string): (r: string)
    ensures |r| <= |s|
    ensures AllSatisfy(r, IsDigit)
  {
    if s == [] then []
    else if IsDigit(s[0]) then [s[0]] + DigitsOnly(s[1..])
    else DigitsOnly(s[1..])
  }

  lemma {:induction false} DigitsOnlyAppend(a: string, b: string)
    ensures DigitsOnly(a + b) == DigitsOnly(a) + DigitsOnly(b)
  {
    if a != [] {
      assert (a + b)[1..] == a[1..] + b;
      DigitsOnlyAppend(a[1..], b);
    } else {
      assert a + b == b;
    }
  }

  /** A string of digits is left as it is; in particular cleaning twice is cleaning once. */
  lemma {:induction false} DigitsOnlyKeepsDigits(s: string)
    requires AllSatisfy(s, IsDigit)
    ensures DigitsOnly(s) == s
  {
    if s != [] {
      DigitsOnlyKeepsDigits(s[1..]);
    }
  }

  lemma DigitsOnlyIdempotent(s: string)
    ensures DigitsOnly(DigitsOnly(s)) == DigitsOnly(s)
  {
    DigitsOnlyKeepsDigits(DigitsOnly(s));
  }

  /** Exactly the digits of the input survive. */
  lemma {:induction false} DigitsOnlyCount(s: string)
    ensures |DigitsOnly(s)| == CountIf(s, IsDigit)
    ensures DigitsOnly(s) == [] <==> forall i :: 0 <= i < |s| ==> !IsDigit(s[i])
  {
    if s != [] {
      DigitsOnlyCount(s[1..]);
      assert s == [s[0]] + s[1..];
      CountIfAppend([s[0]], s[1..], IsDigit);
      if IsDigit(s[0]) {
        assert DigitsOnly(s)[0] == s[0];
      } else {
        assert forall i :: 1 <= i < |s| ==> s[1..][i - 1] == s[i];
      }
    }
  }

  /** A non-empty cleaned number is what the pipeline's feature extractor accepts. */
  lemma CleanedIsPhoneDigits(s: string)
    requires DigitsOnly(s) != []
    ensures PhoneFeatures.IsPhoneDigits(DigitsOnly(s))
  {
    var r := DigitsOnly(s);
    forall i | 0 <= i < |r| ensures IsDigit(r[i]) {
    }
  }

  /** `list(xs).index(x)`, or `None` where it raises `ValueError`. */
  function FirstIndex(xs: seq<string>, x: string): (r: Option<nat>)
    ensures r.None? <==> x !in xs
    ensures r.Some? ==> r.value < |xs| && xs[r.value] == x && x !in xs[..r.value]
  {
    if xs == [] then None
    else if xs[0] == x then Some(0)
    else
      var rest := FirstIndex(xs[1..], x);
      if rest.None? then None
      else
        assert xs[1..][..rest.value] == xs[1..rest.value + 1];
        Some(rest.value + 1)
  }

  /**
   * What the pipeline gives for the cleaned number: `str(predict(df)[0])` (or
   * the exception it raised), `predict_proba(df)[0]` (`None` when the model has
   * no `predict_proba`), and `classes_` (`None` when missing; labels that are
   * not strings are passed as strings no label equals).
   */
  datatype PhoneModel = PhoneModel(
    prediction: Outcome<string>,
    proba: Option<Outcome<seq<real>>>,
    classes: Option<seq<string>>)

  /** The JSON body `predict_phone` returns. */
  datatype PhoneResponse =
    | PhoneError(error: string)
    | PhoneResult(phoneNumber: string, result: string, confidence: Option<real>)

  /**
   * The confidence the inner `try` computes: the probability of the predicted
   * label when `predict_proba` ran, `classes_` exists, the label is among the
   * classes and its index is inside the probability row.
   */
  predicate HasConfidence(model: PhoneModel, predicted: string) {
    && model.proba.Some? && model.proba.value.Returned?
    && model.classes.Some? && predicted in model.classes.value
  }

  /**
   * `predict_phone`: the model guard, the empty-after-cleaning guard, then
   * prediction with a best-effort confidence; exceptions from `predict` and
   * `predict_proba` reach the outer handler.
   */
  method PredictPhone(modelLoaded: bool, phoneNumber: string, model: PhoneModel)
    returns (resp: PhoneResponse)
    ensures !modelLoaded ==> resp == PhoneError("Model not loaded. Check server logs.")
    ensures modelLoaded && DigitsOnly(phoneNumber) == [] ==>
      resp == PhoneError("Invalid phone number input.")
    ensures modelLoaded && DigitsOnly(phoneNumber) != [] && model.prediction.Raised? ==>
      resp == PhoneError("Prediction failed: " + model.prediction.message)
    ensures (modelLoaded && DigitsOnly(phoneNumber) != [] && model.prediction.Returned?
             && model.proba.Some? && model.proba.value.Raised?) ==>
      resp == PhoneError("Prediction failed: " + model.proba.value.message)
    ensures (modelLoaded && DigitsOnly(phoneNumber) != [] && model.prediction.Returned?
             && !(model.proba.Some? && model.proba.value.Raised?)) ==>
      && resp.PhoneResult?
      && resp.phoneNumber == phoneNumber
      && resp.result == model.prediction.value
      && (resp.confidence.Some? <==>
            HasConfidence(model, resp.result)
            && FirstIndex(model.classes.value, resp.result).value < |model.proba.value.value|)
      && (resp.confidence.Some? ==>
            resp.confidence.value
              == model.proba.value.value[FirstIndex(model.classes.value, resp.result).value])
  {
    if !modelLoaded {
      return PhoneError("Model not loaded. Check server logs.");
    }
    var numStr := DigitsOnly(phoneNumber);
    if numStr == [] {
      return PhoneError("Invalid phone number input.");
    }
    if model.prediction.Raised? {
      return PhoneError("Prediction failed: " + model.prediction.message);
    }
    var predicted := model.prediction.value;
    var confidence: Option<real> := None;
    var proba: Option<seq<real>> := None;
    if model.proba.Some? {
      match model.proba.value {
        case Raised(message) =>
          return PhoneError("Prediction failed: " + message);
        case Returned(row) =>
          proba := Some(row);
      }
    }
    if model.classes.Some? {
      var classIndex := FirstIndex(model.classes.value, predicted);
      if classIndex.Some? && proba.Some? && classIndex.value < |proba.value| {
        confidence := Some(proba.value[classIndex.value]);
      }
    }
    resp := PhoneResult(phoneNumber, predicted, confidence);
  }
}
