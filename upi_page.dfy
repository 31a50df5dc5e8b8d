/**
 * frontend/src/pages/UpiPage.jsx: the UPI ID check, the request lifecycle of
 * `handlePredict`, and what the page shows for a result.
 */
module UpiPage {
  import opened Common
  import opened Text
  import opened Web

  const EMPTY_ALERT := "Please enter a UPI ID"
  const INVALID_ALERT := "Invalid UPI ID entered. Please enter a correct UPI ID"
  const CONNECTION_ALERT := "Error connecting to API"

  /** `[a-zA-Z0-9._-]` */
  predicate IsHandleChar(c: char) {
    IsAlnum(c) || c == '.' || c == '_' || c == '-'
  }

  /** `s` is `[a-zA-Z0-9._-]+`, then `@` at index `k`, then `[a-zA-Z0-9]+`. */
  predicate UpiSplitAt(s: string, k: int) {
    && 1 <= k < |s| - 1 && s[k] == '@'
    && (forall i :: 0 <= i < k ==> IsHandleChar(s[i]))
    && (forall i :: k < i < |s| ==> IsAlnum(s[i]))
  }

  /**
   * `validateUpi`: `/^[a-zA-Z0-9._-]+@[a-zA-Z0-9]+$/.test(s)`. Since `@` is not
   * a handle character, the only candidate split is after the leading run of
   * handle characters.
   */
  function ValidateUpi(s: string): (ok: bool)
    ensures ok <==> exists k :: UpiSplitAt(s, k)
  {
    var k := |s| - |StripLeft(s, IsHandleChar)|;
    SplitAfterHandle(s, k);
    1 <= k < |s| - 1 && s[k] == '@' && AllSatisfy(s[k + 1..], IsAlnum)
  }

  lemma SplitAfterHandle(s: string, k: int)
    requires k == |s| - |StripLeft(s, IsHandleChar)|
    ensures (exists j :: UpiSplitAt(s, j)) <==>
      1 <= k < |s| - 1 && s[k] == '@' && AllSatisfy(s[k + 1..], IsAlnum)
  {
    var rest := StripLeft(s, IsHandleChar);
    assert forall i :: 0 <= i < k ==> IsHandleChar(s[i]);
    assert k < |s| ==> s[k] == rest[0];
    if j :| UpiSplitAt(s, j) {
      assert !IsHandleChar(s[j]);
      assert k == j;
      var provider := s[k + 1..];
      forall i | 0 <= i < |provider| ensures IsAlnum(provider[i]) {
        assert provider[i] == s[k + 1 + i];
      }
    }
    if 1 <= k < |s| - 1 && s[k] == '@' && AllSatisfy(s[k + 1..], IsAlnum) {
      forall i | k < i < |s| ensures IsAlnum(s[i]) {
        assert s[i] == s[k + 1..][i - k - 1];
      }
      assert UpiSplitAt(s, k);
    }
  }

  /** There is at most one way to read a UPI ID as handle `@` provider. */
  lemma UpiSplitUnique(s: string, j: int, k: int)
    requires UpiSplitAt(s, j) && UpiSplitAt(s, k)
    ensures j == k
  {
  }

  /**
   * The pattern is tested on the untrimmed input: an accepted ID is never blank,
   * and an ID with a leading or trailing blank is refused.
   */
  lemma ValidUpiHasNoOuterBlank(s: string)
    requires ValidateUpi(s)
    ensures !AllSatisfy(s, IsJsSpace)
    ensures !IsJsSpace(s[0]) && !IsJsSpace(s[|s| - 1])
  {
    var k :| UpiSplitAt(s, k);
    assert IsHandleChar(s[0]) && IsAlnum(s[|s| - 1]);
  }

  /** The JSON fields the page reads from a `/upi/predict` reply. */
  datatype UpiBody = UpiBody(
    upi: Option<string>,
    prediction: Option<int>,
    probability: Option<seq<real>>,
    error: Option<string>)

  /** What the page shows below the button. */
  datatype UpiView =
    | Nothing
    | ErrorText(message: string)
    | ResultBox(upi: Option<string>, safe: bool, confidence: Option<real>)

  /** `(result.probability[result.prediction] || 0)`: the entry for the predicted class, else 0. */
  function PredictedProbability(probability: seq<real>, prediction: Option<int>): (p: real)
    ensures prediction.Some? && 0 <= prediction.value < |probability| ==> p == probability[prediction.value]
    ensures !(prediction.Some? && 0 <= prediction.value < |probability|) ==> p == 0.0
  {
    if prediction.Some? && 0 <= prediction.value < |probability| then probability[prediction.value] else 0.0
  }

  /** The result and error blocks of the page (UpiPage.jsx, lines 74-108). */
  function Render(result: Option<UpiBody>): (v: UpiView)
    ensures v.Nothing? <==> result.None?
    ensures v.ErrorText? <==> result.Some? && Truthy(result.value.error)
    ensures v.ErrorText? ==> v.message == result.value.error.value
    ensures v.ResultBox? ==>
      && v.upi == result.value.upi
      && (v.safe <==> result.value.prediction == Some(0))
      && (v.confidence.Some? <==> result.value.probability.Some?)
      && (v.confidence.Some? ==>
            v.confidence.value == PredictedProbability(result.value.probability.value, result.value.prediction))
  {
    match result
    case None => Nothing
    case Some(body) =>
      if Truthy(body.error) then ErrorText(body.error.value)
      else
        var confidence :=
          if body.probability.Some? then Some(PredictedProbability(body.probability.value, body.prediction))
          else None;
        ResultBox(body.upi, body.prediction == Some(0), confidence)
  }

  /** The state of the `UpiPage` component. */
  class Page {
    var upi: string
    var result: Option<UpiBody>
    var loading: bool
    /** The messages passed to `alert`, oldest first. */
    var alerts: seq<string>
    /** The `upi` field of every POST to `/upi/predict`, oldest first. */
    var requests: seq<string>

    /** Only IDs that pass `validateUpi` are ever sent. */
    predicate Valid()
      reads this
    {
      forall i :: 0 <= i < |requests| ==> ValidateUpi(requests[i])
    }

    constructor()
      ensures Valid()
      ensures upi == "" && result == None && !loading && alerts == [] && requests == []
    {
      upi := "";
      result := None;
      loading := false;
      alerts := [];
      requests := [];
    }

    /** The input's `onChange`. */
    method SetUpi(s: string)
      requires Valid()
      modifies this
      ensures Valid()
      ensures upi == s
      ensures result == old(result) && loading == old(loading)
      ensures alerts == old(alerts) && requests == old(requests)
    {
      upi := s;
    }

    /**
     * `handlePredict` up to the `await`: the blank check on the trimmed input,
     * the pattern check on the untrimmed one, then `setLoading(true)` and the
     * POST. The button is disabled while loading.
     */
    method BeginPredict() returns (sent: bool)
      requires Valid() && !loading
      modifies this
      ensures Valid()
      ensures sent <==> ValidateUpi(upi)
      ensures AllSatisfy(upi, IsJsSpace) ==> alerts == old(alerts) + [EMPTY_ALERT]
      ensures !AllSatisfy(upi, IsJsSpace) && !ValidateUpi(upi) ==> alerts == old(alerts) + [INVALID_ALERT]
      ensures sent ==> loading && alerts == old(alerts) && requests == old(requests) + [upi]
      ensures !sent ==> !loading && requests == old(requests)
      ensures upi == old(upi) && result == old(result)
    {
      if AllSatisfy(upi, IsJsSpace) {
        if ValidateUpi(upi) {
          ValidUpiHasNoOuterBlank(upi);
        }
        alerts := alerts + [EMPTY_ALERT];
        return false;
      }
      if !ValidateUpi(upi) {
        alerts := alerts + [INVALID_ALERT];
        return false;
      }
      loading := true;
      requests := requests + [upi];
      sent := true;
    }

    /**
     * `handlePredict` after the `await`: any JSON reply becomes `result`, a
     * failed request only alerts, and `finally` clears `loading`.
     */
    method FinishPredict(response: Fetched<UpiBody>)
      requires Valid() && loading
      modifies this
      ensures Valid() && !loading
      ensures response.Received? ==> result == Some(response.data) && alerts == old(alerts)
      ensures response.ConnectionFailed? ==>
        result == old(result) && alerts == old(alerts) + [CONNECTION_ALERT]
      ensures upi == old(upi) && requests == old(requests)
    {
      match response {
        case Received(_, data) =>
          result := Some(data);
        case ConnectionFailed =>
          alerts := alerts + [CONNECTION_ALERT];
      }
      loading := false;
    }

    /** One whole click on "Check UPI ID", the reply being `response` if a request goes out. */
    method HandlePredict(response: Fetched<UpiBody>)
      requires Valid() && !loading
      modifies this
      ensures Valid() && !loading
      ensures !ValidateUpi(upi) ==> result == old(result) && requests == old(requests)
      ensures AllSatisfy(upi, IsJsSpace) ==> alerts == old(alerts) + [EMPTY_ALERT]
      ensures !AllSatisfy(upi, IsJsSpace) && !ValidateUpi(upi) ==> alerts == old(alerts) + [INVALID_ALERT]
      ensures ValidateUpi(upi) ==> requests == old(requests) + [upi]
      ensures ValidateUpi(upi) && response.Received? ==> result == Some(response.data) && alerts == old(alerts)
      ensures ValidateUpi(upi) && response.ConnectionFailed? ==>
        result == old(result) && alerts == old(alerts) + [CONNECTION_ALERT]
      ensures upi == old(upi)
    {
      var sent := BeginPredict();
      if sent {
        FinishPredict(response);
      }
    }
  }
}
