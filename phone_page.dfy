/**
 * frontend/src/pages/PhonePage.jsx: the request lifecycle of `handlePredict`,
 * `getLabelColor`, and what the page shows for a result.
 */
module PhonePage {
  import opened Common
  import opened Text
  import opened Web

  const EMPTY_ALERT := "Please enter a valid phone number"
  const CONNECTION_ALERT := "Error connecting to API"

  /** A JSON field that may be missing (`undefined`), `null`, or a number. */
  datatype NumberField = Absent | Null | Number(value: real)

  /** The JSON fields the page reads from a `/phone/predict` reply. */
  datatype PhoneBody = PhoneBody(
    phoneNumber: Option<string>,
    result: Option<string>,
    confidence: NumberField,
    error: Option<string>)

  /** The three colour classes `getLabelColor` chooses between. */
  datatype LabelColor = Gray | Red | Emerald

  /**
   * `getLabelColor`: gray for a falsy label, red when the lower-cased label is
   * "spam", emerald otherwise.
   */
  function GetLabelColor(name: Option<string>): (c: LabelColor)
    ensures c == Gray <==> !Truthy(name)
    ensures c == Red <==> Truthy(name) && ToLower(name.value) == "spam"
  {
    if !Truthy(name) then Gray
    else if ToLower(name.value) == "spam" then Red
    else Emerald
  }

  /** What the page shows below the button. */
  datatype PhoneView =
    | Nothing
    | ErrorText(message: string)
    | ResultBox(phoneNumber: Option<string>, color: LabelColor, spam: bool, confidence: Option<NumberField>)

  /** The result and error blocks of the page (PhonePage.jsx, lines 69-96). */
  function Render(result: Option<PhoneBody>): (v: PhoneView)
    ensures v.Nothing? <==> result.None?
    ensures v.ErrorText? <==> result.Some? && Truthy(result.value.error)
    ensures v.ErrorText? ==> v.message == result.value.error.value
    ensures v.ResultBox? ==>
      && v.phoneNumber == result.value.phoneNumber
      && v.color == GetLabelColor(result.value.result)
      && (v.spam <==> result.value.result == Some("Spam"))
      && (v.confidence.Some? <==> !result.value.confidence.Null?)
      && (v.confidence.Some? ==> v.confidence.value == result.value.confidence)
  {
    match result
    case None => Nothing
    case Some(body) =>
      if Truthy(body.error) then ErrorText(body.error.value)
      else
        ResultBox(
          body.phoneNumber,
          GetLabelColor(body.result),
          body.result == Some("Spam"),
          if body.confidence.Null? then None else Some(body.confidence))
  }

  /**
   * The colour compares case-insensitively but the text compares exactly, so
   * "SPAM" is coloured red and yet labelled "Genuine / Safe".
   */
  lemma ShoutedSpamMismatch()
    ensures GetLabelColor(Some("SPAM")) == Red
    ensures !Render(Some(PhoneBody(None, Some("SPAM"), Null, None))).spam
  {
    assert ToLower("SPAM") == "spam";
  }

  /** A reply without a `confidence` key still shows the confidence row (as NaN); only `null` hides it. */
  lemma AbsentConfidenceShown(body: PhoneBody)
    requires !Truthy(body.error) && body.confidence.Absent?
    ensures Render(Some(body)).ResultBox? && Render(Some(body)).confidence == Some(Absent)
  {
  }

  /** The state of the `PhonePage` component. */
  class Page {
    var phone: string
    var result: Option<PhoneBody>
    var loading: bool
    /** The messages passed to `alert`, oldest first. */
    var alerts: seq<string>
    /** The `phone_number` field of every POST to `/phone/predict`, oldest first. */
    var requests: seq<string>

    /** Only inputs that are not blank are ever sent. */
    predicate Valid()
      reads this
    {
      forall i :: 0 <= i < |requests| ==> !AllSatisfy(requests[i], IsJsSpace)
    }

    constructor()
      ensures Valid()
      ensures phone == "" && result == None && !loading && alerts == [] && requests == []
    {
      phone := "";
      result := None;
      loading := false;
      alerts := [];
      requests := [];
    }

    /** The input's `onChange`. */
    method SetPhone(s: string)
      requires Valid()
      modifies this
      ensures Valid()
      ensures phone == s
      ensures result == old(result) && loading == old(loading)
      ensures alerts == old(alerts) && requests == old(requests)
    {
      phone := s;
    }

    /**
     * `handlePredict` up to the `await`: the blank check on the trimmed input,
     * then `setLoading(true)` and a POST of the untrimmed input. The button is
     * disabled while loading.
     */
    method BeginPredict() returns (sent: bool)
      requires Valid() && !loading
      modifies this
      ensures Valid()
      ensures sent <==> !AllSatisfy(phone, IsJsSpace)
      ensures sent ==> loading && alerts == old(alerts) && requests == old(requests) + [phone]
      ensures !sent ==> !loading && alerts == old(alerts) + [EMPTY_ALERT] && requests == old(requests)
      ensures phone == old(phone) && result == old(result)
    {
      if AllSatisfy(phone, IsJsSpace) {
        alerts := alerts + [EMPTY_ALERT];
        return false;
      }
      loading := true;
      requests := requests + [phone];
      sent := true;
    }

    /**
     * `handlePredict` after the `await`: any JSON reply becomes `result`, a
     * failed request only alerts, and `finally` clears `loading`.
     */
    method FinishPredict(response: Fetched<PhoneBody>)
      requires Valid() && loading
      modifies this
      ensures Valid() && !loading
      ensures response.Received? ==> result == Some(response.data) && alerts == old(alerts)
      ensures response.ConnectionFailed? ==>
        result == old(result) && alerts == old(alerts) + [CONNECTION_ALERT]
      ensures phone == old(phone) && requests == old(requests)
    {
      match response {
        case Received(_, data) =>
          result := Some(data);
        case ConnectionFailed =>
          alerts := alerts + [CONNECTION_ALERT];
      }
      loading := false;
    }

    /** One whole click on "Check Number", the reply being `response` if a request goes out. */
    method HandlePredict(response: Fetched<PhoneBody>)
      requires Valid() && !loading
      modifies this
      ensures Valid() && !loading
      ensures AllSatisfy(phone, IsJsSpace) ==>
        result == old(result) && requests == old(requests) && alerts == old(alerts) + [EMPTY_ALERT]
      ensures !AllSatisfy(phone, IsJsSpace) ==> requests == old(requests) + [phone]
      ensures !AllSatisfy(phone, IsJsSpace) && response.Received? ==>
        result == Some(response.data) && alerts == old(alerts)
      ensures !AllSatisfy(phone, IsJsSpace) && response.ConnectionFailed? ==>
        result == old(result) && alerts == old(alerts) + [CONNECTION_ALERT]
      ensures phone == old(phone)
    {
      var sent := BeginPredict();
      if sent {
        FinishPredict(response);
      }
    }
  }
}
