/**
 * frontend/src/pages/QrPage.jsx: file selection, the two-step upload of
 * `handleUpload` (decode in the browser, then POST), and the result display.
 * Decoding the image is browser and library code; its answer is a parameter.
 */
module QrPage {
  import opened Common
  import opened Web

  const NO_FILE_TOAST := "Please select a QR image first!"
  const NOT_QR_TOAST := "\U{274C} Invalid image! Please upload a valid QR code."
  const SUCCESS_TOAST := "\U{2705} QR code successfully analyzed!"
  const UPLOAD_TOAST := "\U{26A0}\U{FE0F} Error uploading QR code!"

  /** A file the user picked. */
  datatype ImageFile = ImageFile(name: string)

  /** A `react-hot-toast` notification. */
  datatype Toast = ErrorToast(message: string) | SuccessToast(message: string)

  /**
   * Where `handleUpload` is suspended: not running, awaiting `validateQrImage`
   * for the file it was started with, or awaiting the POST of that file.
   */
  datatype Awaiting = Idle | Decoding(file: ImageFile) | Uploading(file: ImageFile)

  /** The JSON fields the page reads from a `/qr/` reply. */
  datatype QrBody = QrBody(filename: Option<string>, prediction: Option<string>, confidence: Option<real>)

  /** What the page shows below the button. */
  datatype QrView =
    | Nothing
    | ResultBox(filename: Option<string>, red: bool, shown: Option<string>, percent: Option<real>)

  /**
   * The result block (QrPage.jsx, lines 116-140): the raw prediction, red
   * exactly for "Malicious", and the confidence scaled by 100. An absent
   * confidence, which the page prints as `NaN%`, is shown here as `None`.
   */
  function Render(result: Option<QrBody>): (v: QrView)
    ensures v.Nothing? <==> result.None?
    ensures v.ResultBox? ==>
      && v.filename == result.value.filename
      && v.shown == result.value.prediction
      && (v.red <==> result.value.prediction == Some("Malicious"))
      && (v.percent.Some? <==> result.value.confidence.Some?)
      && (v.percent.Some? ==> v.percent.value == result.value.confidence.value * 100.0)
  {
    match result
    case None => Nothing
    case Some(body) =>
      var percent := if body.confidence.Some? then Some(body.confidence.value * 100.0) else None;
      ResultBox(body.filename, body.prediction == Some("Malicious"), body.prediction, percent)
  }

  /** The state of the `QrScanner` component. */
  class Page {
    var file: Option<ImageFile>
    var result: Option<QrBody>
    var loading: bool
    /** The toasts shown, oldest first. */
    var toasts: seq<Toast>
    /** The file of every POST to `/qr/`, oldest first. */
    var uploads: seq<ImageFile>
    /** The pending continuation of `handleUpload`. */
    var awaiting: Awaiting

    /** An upload is under way exactly while `loading` is set, so the disabled button cannot start a second one. */
    predicate Valid()
      reads this
    {
      loading <==> !awaiting.Idle?
    }

    constructor()
      ensures Valid()
      ensures file == None && result == None && !loading && toasts == [] && uploads == [] && awaiting == Idle
    {
      file := None;
      result := None;
      loading := false;
      toasts := [];
      uploads := [];
      awaiting := Idle;
    }

    /**
     * `handleFileChange`: takes the first chosen file (none if the dialog was
     * cancelled) and clears the result. The file input is never disabled, so
     * this may happen during an upload.
     */
    method HandleFileChange(chosen: Option<ImageFile>)
      requires Valid()
      modifies this
      ensures Valid()
      ensures file == chosen && result == None
      ensures loading == old(loading) && awaiting == old(awaiting)
      ensures toasts == old(toasts) && uploads == old(uploads)
    {
      file := chosen;
      result := None;
    }

    /**
     * `handleUpload` up to its first `await`: without a file only a toast;
     * otherwise `setLoading(true)` and decoding starts. `result` is not cleared.
     */
    method HandleUpload()
      requires Valid() && !loading
      modifies this
      ensures Valid()
      ensures old(file).None? ==>
        !loading && awaiting == Idle && toasts == old(toasts) + [ErrorToast(NO_FILE_TOAST)]
      ensures old(file).Some? ==>
        loading && awaiting == Decoding(old(file).value) && toasts == old(toasts)
      ensures file == old(file) && result == old(result) && uploads == old(uploads)
    {
      if file.None? {
        toasts := toasts + [ErrorToast(NO_FILE_TOAST)];
        return;
      }
      loading := true;
      awaiting := Decoding(file.value);
    }

    /**
     * `validateQrImage` resolved with `isQr`. Without a code: `loading` is
     * reset and a toast shows; with one, the file the upload started with is
     * posted. An image that fails to load never resolves the promise, so for it
     * this step never happens and `loading` stays set.
     */
    method DecodeSettled(isQr: bool)
      requires Valid() && awaiting.Decoding?
      modifies this
      ensures Valid()
      ensures !isQr ==>
        && !loading && awaiting == Idle
        && toasts == old(toasts) + [ErrorToast(NOT_QR_TOAST)] && uploads == old(uploads)
      ensures isQr ==>
        && loading && awaiting == Uploading(old(awaiting).file)
        && toasts == old(toasts) && uploads == old(uploads) + [old(awaiting).file]
      ensures file == old(file) && result == old(result)
    {
      var picked := awaiting.file;
      if !isQr {
        loading := false;
        awaiting := Idle;
        toasts := toasts + [ErrorToast(NOT_QR_TOAST)];
        return;
      }
      uploads := uploads + [picked];
      awaiting := Uploading(picked);
    }

    /**
     * The POST settled. `axios` rejects every status outside 2xx, so only a
     * successful reply becomes `result`; `finally` clears `loading`.
     */
    method UploadSettled(response: Fetched<QrBody>)
      requires Valid() && awaiting.Uploading?
      modifies this
      ensures Valid() && !loading && awaiting == Idle
      ensures response.Received? && response.ok ==>
        result == Some(response.data) && toasts == old(toasts) + [SuccessToast(SUCCESS_TOAST)]
      ensures !(response.Received? && response.ok) ==>
        result == old(result) && toasts == old(toasts) + [ErrorToast(UPLOAD_TOAST)]
      ensures file == old(file) && uploads == old(uploads)
    {
      if response.Received? && response.ok {
        result := Some(response.data);
        toasts := toasts + [SuccessToast(SUCCESS_TOAST)];
      } else {
        toasts := toasts + [ErrorToast(UPLOAD_TOAST)];
      }
      loading := false;
      awaiting := Idle;
    }
  }
}
