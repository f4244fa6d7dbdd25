/** The `/diagnose` endpoint's decision ladder (the same in both backends):
    which status code and body an upload gets, checked in a fixed order. */
module DiagnoseRoute {
  import opened Wrappers
  import opened JsonValue

  /** What `analyze_crop_disease` comes to: the record it returns, or an
      exception it raises (it re-raises whatever it caught). */
  datatype Analysis = Returned(record: Fields) | Failed

  /** The multipart upload: no `file` part at all, or a part with its file
      name and whether PIL could open and verify the bytes as an image. */
  datatype Upload = NoFile | FilePart(filename: string, isImage: bool)

  datatype Response = Response(status: int, body: Fields)

  const AnalyzeFailedMessage: string := "Failed to analyze image"

  /** `diagnose_crop`: service not ready (503), no file (400), empty file
      name (400), not an image (400), analysis raised (500 with `error` and
      `message`), otherwise 200 with the analysis record as the body.
      `errorText` stands for `str(e)` of the raised exception. */
  function Respond(aiReady: bool, upload: Upload, analysis: Analysis, errorText: string): (r: Response)
    ensures r.status == 503 <==> !aiReady
    ensures r.status == 400 <==>
      aiReady && (upload.NoFile? || upload.filename == "" || !upload.isImage)
    ensures r.status == 500 <==>
      aiReady && upload.FilePart? && upload.filename != "" && upload.isImage && analysis.Failed?
    ensures r.status == 200 <==>
      aiReady && upload.FilePart? && upload.filename != "" && upload.isImage && analysis.Returned?
    ensures r.status == 200 ==> r.body == analysis.record
    ensures r.status == 400 ==> Get(r.body, "error") == Some(JStr(
      if upload.NoFile? then "No file uploaded"
      else if upload.filename == "" then "No file selected"
      else "Invalid image file"))
    ensures r.status == 500 ==> Get(r.body, "error") == Some(JStr(errorText))
                                && Get(r.body, "message") == Some(JStr(AnalyzeFailedMessage))
    ensures r.status != 200 ==> Has(r.body, "error") && !Has(r.body, "detail")
  {
    if !aiReady then
      ErrorBody("AI Engine is not ready. Please check GROQ_API_KEY configuration.");
      Response(503, [("error", JStr("AI Engine is not ready. Please check GROQ_API_KEY configuration."))])
    else if upload.NoFile? then
      ErrorBody("No file uploaded");
      Response(400, [("error", JStr("No file uploaded"))])
    else if upload.filename == "" then
      ErrorBody("No file selected");
      Response(400, [("error", JStr("No file selected"))])
    else if !upload.isImage then
      ErrorBody("Invalid image file");
      Response(400, [("error", JStr("Invalid image file"))])
    else if analysis.Failed? then
      var body := [("error", JStr(errorText)), ("message", JStr(AnalyzeFailedMessage))];
      GetAt(body, 0);
      GetAt(body, 1);
      Absent(body, "detail");
      Response(500, body)
    else
      Response(200, analysis.record)
  }

  lemma ErrorBody(message: string)
    ensures Get([("error", JStr(message))], "error") == Some(JStr(message))
    ensures Has([("error", JStr(message))], "error")
    ensures !Has([("error", JStr(message))], "detail")
  {
    GetAt([("error", JStr(message))], 0);
    Absent([("error", JStr(message))], "detail");
  }
}
