/**
 * frontend/src/pages/UrlPage.jsx: the request lifecycle of `handlePredict` and
 * what the page shows for a result.
 */
module UrlPage {
  import opened Common
  import opened Text
  import opened Web

  const EMPTY_ALERT := "Please enter a valid URL"
  const CONNECTION_ALERT := "Error connecting to API"

  /** The JSON fields the page reads from a `/url/predict` reply. */
  datatype UrlBody = UrlBody(url: Option<string>, result: Option<string>, error: Option<string>)

  /** What the page shows below the button. */
  datatype UrlView =
    | Nothing
    | ErrorText(message: string)
    | ResultBox(url: Option<string>, red: bool, shown: Option<string>)

  /**
   * The result and error blocks (UrlPage.jsx, lines 63-85): the raw `result`
   * string, red exactly for "Malicious"; no confidence is shown.
   */
  function Render(result: Option<UrlBody>): (v: UrlView)
    ensures v.Nothing? <==> result.None?
    ensures v.ErrorText? <==> result.Some? && Truthy(result.value.error)
    ensures v.ErrorText? ==> v.message == result.value.error.value
    ensures v.ResultBox? ==>
      && v.url == result.value.url
      && v.shown == result.value.result
      && (v.red <==> result.value.result == Some("Malicious"))
  {
    match result
    case None => Nothing
    case Some(body) =>
      if Truthy(body.error) then ErrorText(body.error.value)
      else ResultBox(body.url, body.result == Some("Malicious"), body.result)
  }

  /** The state of the `UrlPage` component. */
  class Page {
    var url: string
    var result: Option<UrlBody>
    var loading: bool
    /** The messages passed to `alert`, oldest first. */
    var alerts: seq<string>
    /** The `url` field of every POST to `/url/predict`, oldest first. */
    var requests: seq<string>

    /** Only URLs that are not blank are ever sent. */
    predicate Valid()
      reads this
    {
      forall i :: 0 <= i < |requests| ==> !AllSatisfy(requests[i], IsJsSpace)
    }

    constructor()
      ensures Valid()
      ensures url == "" && result == None && !loading && alerts == [] && requests == []
    {
      url := "";
      result := None;
      loading := false;
      alerts := [];
      requests := [];
    }

    /** The input's `onChange`. */
    method SetUrl(s: string)
      requires Valid()
      modifies this
      ensures Valid()
      ensures url == s
      ensures result == old(result) && loading == old(loading)
      ensures alerts == old(alerts) && requests == old(requests)
    {
      url := s;
    }

    /**
     * `handlePredict` up to the `await`: the blank check on the trimmed URL,
     * then `setLoading(true)` and a POST of the untrimmed URL. The button is
     * disabled while loading.
     */
    method BeginPredict() returns (sent: bool)
      requires Valid() && !loading
      modifies this
      ensures Valid()
      ensures sent <==> !AllSatisfy(url, IsJsSpace)
      ensures sent ==> loading && alerts == old(alerts) && requests == old(requests) + [url]
      ensures !sent ==> !loading && alerts == old(alerts) + [EMPTY_ALERT] && requests == old(requests)
      ensures url == old(url) && result == old(result)
    {
      if AllSatisfy(url, IsJsSpace) {
        alerts := alerts + [EMPTY_ALERT];
        return false;
      }
      loading := true;
      requests := requests + [url];
      sent := true;
    }

    /**
     * `handlePredict` after the `await`: any JSON reply, an error payload
     * included, becomes `result`; a failed request only alerts; `finally`
     * clears `loading`.
     */
    method FinishPredict(response: Fetched<UrlBody>)
      requires Valid() && loading
      modifies this
      ensures Valid() && !loading
      ensures response.Received? ==> result == Some(response.data) && alerts == old(alerts)
      ensures response.ConnectionFailed? ==>
        result == old(result) && alerts == old(alerts) + [CONNECTION_ALERT]
      ensures url == old(url) && requests == old(requests)
    {
      match response {
        case Received(_, data) =>
          result := Some(data);
        case ConnectionFailed =>
          alerts := alerts + [CONNECTION_ALERT];
      }
      loading := false;
    }

    /** One whole click on "Check URL", the reply being `response` if a request goes out. */
    method HandlePredict(response: Fetched<UrlBody>)
      requires Valid() && !loading
      modifies this
      ensures Valid() && !loading
      ensures AllSatisfy(url, IsJsSpace) ==>
        result == old(result) && requests == old(requests) && alerts == old(alerts) + [EMPTY_ALERT]
      ensures !AllSatisfy(url, IsJsSpace) ==> requests == old(requests) + [url]
      ensures !AllSatisfy(url, IsJsSpace) && response.Received? ==>
        result == Some(response.data) && alerts == old(alerts)
      ensures !AllSatisfy(url, IsJsSpace) && response.ConnectionFailed? ==>
        result == old(result) && alerts == old(alerts) + [CONNECTION_ALERT]
      ensures url == old(url)
    {
      var sent := BeginPredict();
      if sent {
        FinishPredict(response);
      }
    }
  }
}
