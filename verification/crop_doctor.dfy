/** The Crop Doctor page: sending a photo to `/diagnose` and what the page
    shows afterwards — the diagnosis, or a toast and a reset upload zone. */
module CropDoctor {
  import opened Wrappers
  import opened JsonValue
  import opened JsValue

  /** The page state: the preview image, the scanning flag, the stored
      diagnosis (stored as received, without validation; a JSON `null`
      body is stored as `Some(JNull)`, which the page draws as no
      diagnosis) and the last error toast. */
  datatype DoctorView = DoctorView(uploadedImage: Option<string>, isScanning: bool,
                                   diagnosis: Option<Json>, toast: Option<string>)

  const AnalyzeFailedText: string := "Failed to analyze image"
  const BackendHint: string :=
    "Error analyzing crop image. Make sure the backend is running."

  /** How the upload ended: no response, or a response with its `ok` flag
      and its body as JSON (`None` when the body is not JSON). */
  datatype DoctorReply = NoResponse | Answered(ok: bool, body: Option<Json>)

  /** `resetScan`. */
  function Reset(v: DoctorView): (r: DoctorView)
    ensures r.uploadedImage.None? && r.diagnosis.None? && !r.isScanning
    ensures r.toast == v.toast
  {
    v.(uploadedImage := None, diagnosis := None, isScanning := false)
  }

  /** The start of `startScanning`: scanning on, old diagnosis cleared. */
  function Start(v: DoctorView): (r: DoctorView)
    ensures r.isScanning && r.diagnosis.None?
    ensures r.uploadedImage == v.uploadedImage && r.toast == v.toast
  {
    v.(isScanning := true, diagnosis := None)
  }

  /** The message of the error thrown for a response that is not ok:
      `errorData.detail || "Failed to analyze image"`, where an unreadable
      body counts as `{}` and a null body throws a TypeError first. */
  function FailureMessage(body: Option<Json>, e: Engine): (m: string)
    ensures body.None? ==> m == AnalyzeFailedText
    ensures body == Some(JNull) ==> m == e.typeErrorText
    ensures body.Some? && !body.value.JNull? && !Truthy(Prop(body.value, "detail")) ==>
      m == AnalyzeFailedText
  {
    if body.None? then AnalyzeFailedText
    else if body.value.JNull? then e.typeErrorText
    else
      match Prop(body.value, "detail")
      case Some(detail) =>
        if Truthy(Some(detail)) then JsString(detail, e) else AnalyzeFailedText
      case None => AnalyzeFailedText
  }

  /** `error.message || hint` in the catch clause. */
  function ToastText(message: string): (t: string)
    ensures |t| > 0
    ensures |message| > 0 ==> t == message
  {
    if |message| > 0 then message else BackendHint
  }

  /** The catch clause, then `finally`. */
  function Caught(v: DoctorView, message: string): (r: DoctorView)
    ensures r.toast == Some(ToastText(message))
    ensures r.uploadedImage.None? && r.diagnosis.None? && !r.isScanning
  {
    Reset(v.(toast := Some(ToastText(message))))
  }

  /** `startScanning` from the moment the response is in: an ok response's
      JSON is stored as the diagnosis; everything else ends in a toast and a
      reset page. */
  function Scanned(v: DoctorView, reply: DoctorReply, e: Engine): (r: DoctorView)
    ensures !r.isScanning
    ensures r.diagnosis.Some? <==> reply.Answered? && reply.ok && reply.body.Some?
    ensures reply.Answered? && reply.ok && reply.body.Some? ==>
      r.diagnosis == reply.body && r.uploadedImage == v.uploadedImage && r.toast == v.toast
    ensures r.diagnosis.None? ==> r.uploadedImage.None? && r.toast.Some? && |r.toast.value| > 0
  {
    match reply
    case NoResponse => Caught(v, e.fetchErrorText)
    case Answered(ok, body) =>
      if !ok then Caught(v, FailureMessage(body, e))
      else if body.None? then Caught(v, e.syntaxErrorText)
      else v.(diagnosis := body, isScanning := false)
  }

  /** Any JSON value an ok response carries is shown, even one without a
      `disease`: the client does not validate. */
  lemma NoClientValidation(v: DoctorView, data: Json, e: Engine)
    ensures Scanned(Start(v), Answered(true, Some(data)), e).diagnosis == Some(data)
  {
  }

  /** Resetting twice is resetting once. */
  lemma ResetIdempotent(v: DoctorView)
    ensures Reset(Reset(v)) == Reset(v)
  {
  }

  /** A failed response whose body carries a non-empty string `detail`
      shows that text. */
  lemma DetailShown(v: DoctorView, body: Fields, detail: string, e: Engine)
    requires Get(body, "detail") == Some(JStr(detail)) && |detail| > 0
    ensures Scanned(v, Answered(false, Some(JObj(body))), e).toast == Some(detail)
  {
  }
}
