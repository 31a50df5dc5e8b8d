/**
 * frontend/src/pages/SmsPage.jsx: the request lifecycle of `handlePredict`,
 * which keeps only successful replies, and what the page shows for a result.
 */
module SmsPage {
  import opened Common
  import opened Text
  import opened Web

  const EMPTY_ALERT := "Please enter an SMS message"
  const FAILED_ALERT := "Prediction failed"
  const CONNECTION_ALERT := "Error connecting to the backend API"

  /** The JSON fields the page reads from a `/sms/predict` reply. */
  datatype SmsBody = SmsBody(
    text: Option<string>,
    prediction: Option<string>,
    confidence: Option<real>,
    detail: Option<string>)

  /** What the page shows below the button. */
  datatype SmsView =
    | Nothing
    | ResultBox(text: Option<string>, spam: bool, confidence: Option<real>)

  /**
   * The result block (SmsPage.jsx, lines 66-92): "Spam / Unsafe" only for the
   * exact label "Spam", and the confidence as the backend sent it, already a
   * percentage.
   */
  function Render(result: Option<SmsBody>): (v: SmsView)
    ensures v.Nothing? <==> result.None?
    ensures v.ResultBox? ==>
      && v.text == result.value.text
      && (v.spam <==> result.value.prediction == Some("Spam"))
      && v.confidence == result.value.confidence
  {
    match result
    case None => Nothing
    case Some(body) => ResultBox(body.text, body.prediction == Some("Spam"), body.confidence)
  }

  /** The alert for a reply whose status is not ok: `data.detail || "Prediction failed"`. */
  function FailureAlert(data: SmsBody): (message: string)
    ensures Truthy(data.detail) ==> message == data.detail.value
    ensures !Truthy(data.detail) ==> message == FAILED_ALERT
  {
    OrElse(data.detail, FAILED_ALERT)
  }

  /** The state of the `SmsPage` component. */
  class Page {
    var sms: string
    var result: Option<SmsBody>
    var loading: bool
    /** The messages passed to `alert`, oldest first. */
    var alerts: seq<string>
    /** The `text` field of every POST to `/sms/predict`, oldest first. */
    var requests: seq<string>

    /** Only messages that are not blank are ever sent. */
    predicate Valid()
      reads this
    {
      forall i :: 0 <= i < |requests| ==> !AllSatisfy(requests[i], IsJsSpace)
    }

    constructor()
      ensures Valid()
      ensures sms == "" && result == None && !loading && alerts == [] && requests == []
    {
      sms := "";
      result := None;
      loading := false;
      alerts := [];
      requests := [];
    }

    /** The textarea's `onChange`. */
    method SetSms(s: string)
      requires Valid()
      modifies this
      ensures Valid()
      ensures sms == s
      ensures result == old(result) && loading == old(loading)
      ensures alerts == old(alerts) && requests == old(requests)
    {
      sms := s;
    }

    /**
     * `handlePredict` up to the `await`: the blank check on the trimmed message,
     * then `setLoading(true)` and a POST of the untrimmed message. The button is
     * disabled while loading.
     */
    method BeginPredict() returns (sent: bool)
      requires Valid() && !loading
      modifies this
      ensures Valid()
      ensures sent <==> !AllSatisfy(sms, IsJsSpace)
      ensures sent ==> loading && alerts == old(alerts) && requests == old(requests) + [sms]
      ensures !sent ==> !loading && alerts == old(alerts) + [EMPTY_ALERT] && requests == old(requests)
      ensures sms == old(sms) && result == old(result)
    {
      if AllSatisfy(sms, IsJsSpace) {
        alerts := alerts + [EMPTY_ALERT];
        return false;
      }
      loading := true;
      requests := requests + [sms];
      sent := true;
    }

    /**
     * `handlePredict` after the `await`: only an ok reply becomes `result`; a
     * reply with an error status or a failed request only alerts; `finally`
     * clears `loading`.
     */
    method FinishPredict(response: Fetched<SmsBody>)
      requires Valid() && loading
      modifies this
      ensures Valid() && !loading
      ensures response.Received? && response.ok ==> result == Some(response.data) && alerts == old(alerts)
      ensures response.Received? && !response.ok ==>
        result == old(result) && alerts == old(alerts) + [FailureAlert(response.data)]
      ensures response.ConnectionFailed? ==>
        result == old(result) && alerts == old(alerts) + [CONNECTION_ALERT]
      ensures sms == old(sms) && requests == old(requests)
    {
      match response {
        case Received(ok, data) =>
          if ok {
            result := Some(data);
          } else {
            alerts := alerts + [FailureAlert(data)];
          }
        case ConnectionFailed =>
          alerts := alerts + [CONNECTION_ALERT];
      }
      loading := false;
    }

    /** One whole click on "Check SMS", the reply being `response` if a request goes out. */
    method HandlePredict(response: Fetched<SmsBody>)
      requires Valid() && !loading
      modifies this
      ensures Valid() && !loading
      ensures AllSatisfy(sms, IsJsSpace) ==>
        result == old(result) && requests == old(requests) && alerts == old(alerts) + [EMPTY_ALERT]
      ensures !AllSatisfy(sms, IsJsSpace) ==> requests == old(requests) + [sms]
      ensures !(response.Received? && response.ok) ==> result == old(result)
      ensures !AllSatisfy(sms, IsJsSpace) && response.Received? && response.ok ==>
        result == Some(response.data) && alerts == old(alerts)
      ensures !AllSatisfy(sms, IsJsSpace) && response.Received? && !response.ok ==>
        alerts == old(alerts) + [FailureAlert(response.data)]
      ensures !AllSatisfy(sms, IsJsSpace) && response.ConnectionFailed? ==>
        alerts == old(alerts) + [CONNECTION_ALERT]
      ensures sms == old(sms)
    {
      var sent := BeginPredict();
      if sent {
        FinishPredict(response);
      }
    }
  }
}
