/** What the web client and the Flask backend make of each other: the
    request the planner page sends, and the error bodies the two endpoints
    send back as the pages read them. */
module Integration {
  import opened Wrappers
  import opened JsonValue
  import opened JsValue
  import PlannerRoute
  import SmartPlanner
  import CropDoctor
  import DiagnoseRoute
  import Diagnosis

  /** The planner page never sends a soil type, so the backend always
      reasons about 'Red Loam'; the climate values it sends are the
      backend's own defaults. */
  lemma PlannerOmitsSoilType(box: seq<real>)
    ensures var d := PlannerRoute.ReadFieldData(SmartPlanner.RequestBody(box));
      && d.soilType == PlannerRoute.DefaultSoil
      && d.temperature == PlannerRoute.DefaultTemperature
      && d.humidity == PlannerRoute.DefaultHumidity
      && d.rainfall == PlannerRoute.DefaultRainfall
  {
    var r := SmartPlanner.RequestBody(box);
    GetAt(r, 1);
    GetAt(r, 2);
    GetAt(r, 3);
  }

  /** The planner page reads a failed recommendation (status 500) as a body
      without `status: "success"` and shows the backend's `message`. */
  lemma PlannerFailureShown(v: SmartPlanner.PlannerView, body: Option<Json>, reply: Option<string>,
                            parse: string -> Option<Json>, errorText: string, e: Engine)
    ensures var r := PlannerRoute.Recommend(PlannerRoute.Post, body, reply, parse, errorText);
      r.status == 500 ==>
        SmartPlanner.Fetched(v, SmartPlanner.Body(JObj(r.body)), e).error
          == Some(JStr(PlannerRoute.FailedMessage))
  {
    var r := PlannerRoute.Recommend(PlannerRoute.Post, body, reply, parse, errorText);
    if r.status == 500 {
      var failed := [("error", JStr(errorText)), ("message", JStr(PlannerRoute.FailedMessage))];
      assert r.body == failed;
      Absent(failed, "status");
      GetAt(failed, 1);
    }
  }

  /** Every error the `/diagnose` endpoint answers with carries `error` but
      no `detail`, and the crop doctor page reads only `detail`: whatever
      went wrong, the toast says "Failed to analyze image". */
  lemma DoctorShowsGenericFailure(v: CropDoctor.DoctorView, aiReady: bool, upload: DiagnoseRoute.Upload,
                                  analysis: DiagnoseRoute.Analysis, errorText: string, e: Engine)
    ensures var r := DiagnoseRoute.Respond(aiReady, upload, analysis, errorText);
      r.status != 200 ==>
        CropDoctor.Scanned(v, CropDoctor.Answered(false, Some(JObj(r.body))), e).toast
          == Some(CropDoctor.AnalyzeFailedText)
  {
  }

  /** The recommendation records the model is asked for carry `suitability`,
      not `score`; the planner page labels every such card "moderate". */
  lemma ModelCardsAreModerate(rec: Fields, e: Engine)
    requires !Has(rec, "score")
    ensures SmartPlanner.YieldLabel(JObj(rec), e) == Some("moderate")
  {
    Absent(rec, "score");
  }

  /** Fields the crop doctor's result screen reads beyond the normalised
      keys: the health score, the harvest estimate and the product card. */
  const ScreenOnlyFields: seq<string> := ["healthScore", "harvestDays", "product", "productPrice"]

  /** The backend's fallback record carries none of those fields: on that
      record each of them reads `undefined`. */
  lemma FallbackLacksScreenFields(key: string)
    requires key in ScreenOnlyFields
    ensures Prop(JObj(Diagnosis.Fallback), key).None?
  {
    assert key !in Diagnosis.FallbackNames;
    Diagnosis.NotAFallbackKey(key);
  }
}
