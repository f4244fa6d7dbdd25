/** The older backend's `analyze_crop_disease` and `/diagnose` endpoint:
    the same five-method cascade, run on the raw reply (no thinking-block
    removal), with a lighter normalisation and a fallback record without a
    recovery plan. */
module LegacyDiagnosis {
  import opened Wrappers
  import opened JsonValue
  import opened PyText
  import opened Extraction
  import opened DiagnoseRoute
  import Diagnosis

  /** Only `symptoms` and `additional_notes` are defaulted; a dict
      `additional_notes` is left as it is and no `recovery_plan` is added. */
  function Normalize(f: Fields): (r: Fields)
    ensures Keys(r) == Keys(f) + {"symptoms", "additional_notes"}
    ensures forall k :: Has(f, k) ==> Get(r, k) == Get(f, k)
    ensures !Has(f, "symptoms") ==> Get(r, "symptoms") == Some(JArr([]))
    ensures !Has(f, "additional_notes") ==> Get(r, "additional_notes") == Some(JStr(""))
    ensures Has(r, "recovery_plan") <==> Has(f, "recovery_plan")
  {
    SetDefault(SetDefault(f, "symptoms", JArr([])), "additional_notes", JStr(""))
  }

  /** The same failure record as the current backend, less `recovery_plan`. */
  const Fallback: Fields := [
    ("disease", JStr("Unable to analyze")),
    ("crop", JStr("Unknown")),
    ("confidence", JNum(50.0)),
    ("severity", JStr("unknown")),
    ("symptoms", JArr([JStr("Could not parse AI response")])),
    ("treatment", JStr("The AI model returned an unexpected format. Please try again with a different image or check the backend logs.")),
    ("affected_area", JStr("N/A")),
    ("additional_notes", JStr("Unable to parse the AI response. This may be a temporary issue with the model."))
  ]

  /** The older fallback is the current one without its last field: same
      values, no `recovery_plan`. */
  lemma FallbackRecord()
    ensures Diagnosis.Fallback == Fallback + [("recovery_plan", JArr([]))]
    ensures !Has(Fallback, "recovery_plan")
    ensures forall k :: k != "recovery_plan" ==> Get(Fallback, k) == Get(Diagnosis.Fallback, k)
    ensures Has(Fallback, "disease") && Has(Fallback, "crop")
            && Has(Fallback, "symptoms") && Has(Fallback, "additional_notes")
  {
    FallbackIsPrefix();
    Absent(Fallback, "recovery_plan");
    AppendNew(Fallback, "recovery_plan", JArr([]));
    FallbackKeys();
  }

  lemma FallbackIsPrefix()
    ensures Diagnosis.Fallback == Fallback + [("recovery_plan", JArr([]))]
  {
  }

  lemma FallbackKeys()
    ensures Has(Fallback, "disease") && Has(Fallback, "crop")
            && Has(Fallback, "symptoms") && Has(Fallback, "additional_notes")
  {
    assert Fallback[0].0 == "disease" && Fallback[1].0 == "crop";
    assert Fallback[4].0 == "symptoms" && Fallback[7].0 == "additional_notes";
  }

  /** `analyze_crop_disease` of the older backend, from the reply onward;
      the direct parse sees the raw reply. */
  function Analyze(reply: string, parse: string -> Option<Json>,
                   findAll: string -> seq<string>): (r: Analysis)
    ensures r.Returned? ==> Has(r.record, "disease") && Has(r.record, "crop")
                            && Has(r.record, "symptoms") && Has(r.record, "additional_notes")
  {
    match Cascade(reply, parse, findAll)
    case Picked(f) => Returned(Normalize(f))
    case Raised => Failed
    case NoneAccepted =>
      FallbackRecord();
      Returned(Fallback)
  }

  /** A record from the older backend has a recovery plan only when the
      model's own object carried one. */
  lemma RecoveryPlanOnlyFromModel(reply: string, parse: string -> Option<Json>,
                                  findAll: string -> seq<string>)
    ensures var r := Analyze(reply, parse, findAll);
      r.Returned? && Has(r.record, "recovery_plan") ==>
        exists c, f :: c in Candidates(reply, findAll) && parse(c) == Some(JObj(f))
                       && Has(f, "recovery_plan") && r.record == Normalize(f)
  {
    var p := Cascade(reply, parse, findAll);
    var cs := Candidates(reply, findAll);
    var vs := Verdicts(cs, parse);
    CascadeOrder(reply, parse, findAll);
    FallbackRecord();
    if p.Picked? {
      var k :| 0 <= k < |vs| && vs[k] == Accept(p.fields) && forall j :: 0 <= j < k ==> vs[j].Reject?;
      assert parse(cs[k]) == Some(JObj(p.fields));
      assert cs[k] in cs;
    }
  }

  /** A reply with no thinking tag reaches the same decision in both
      backends: both raise, or both return records naming the same disease
      and crop. */
  lemma SameDecisionWithoutThinking(reply: string, parse: string -> Option<Json>,
                                    findAll: string -> seq<string>, render: Json -> string)
    requires !Contains(reply, Open)
    ensures var old_ := Analyze(reply, parse, findAll);
            var new_ := Diagnosis.Analyze(reply, parse, findAll, render);
      && (old_.Failed? <==> new_.Failed?)
      && (old_.Returned? ==> Get(old_.record, "disease") == Get(new_.record, "disease")
                             && Get(old_.record, "crop") == Get(new_.record, "crop"))
  {
    assert Diagnosis.CleanThinking(reply) == reply;
    var p := Cascade(reply, parse, findAll);
    if p.NoneAccepted? {
      FallbackRecord();
    }
  }

  /** `diagnose_crop` of the older backend: the same ladder over this
      backend's analysis. */
  function Diagnose(aiReady: bool, upload: Upload, reply: Option<string>,
                    parse: string -> Option<Json>, findAll: string -> seq<string>,
                    errorText: string): (r: Response)
    ensures r.status == 200 ==> Has(r.body, "disease") && Has(r.body, "crop")
                                && Has(r.body, "symptoms") && Has(r.body, "additional_notes")
    ensures r.status == 500 ==> reply.None? || Analyze(reply.value, parse, findAll).Failed?
  {
    Respond(aiReady, upload,
            if reply.Some? then Analyze(reply.value, parse, findAll) else Failed,
            errorText)
  }
}
