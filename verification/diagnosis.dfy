/** The current backend's `analyze_crop_disease`: thinking-block removal,
    the extraction cascade, normalisation of an accepted object, and the
    fixed fallback record; and its `/diagnose` endpoint. */
module Diagnosis {
  import opened Wrappers
  import opened JsonValue
  import opened PyText
  import opened Extraction
  import opened DiagnoseRoute

  /** Thinking blocks are removed, and the rest stripped, only when both
      the opening and the closing tag occur somewhere in the reply. */
  function CleanThinking(reply: string): (r: string)
    ensures !(Contains(reply, Open) && Contains(reply, Close)) ==> r == reply
    ensures |r| <= |reply|
  {
    if Contains(reply, Open) && Contains(reply, Close) then Strip(RemoveThinking(reply)) else reply
  }

  /** A reply that opens with a thinking block (one in which no closing tag
      starts) comes down to the stripped text after it. */
  lemma LeadingThinkingRemoved(t: string, body: string)
    requires forall k :: 0 <= k < |t| ==> !OccursAt(t + Close, Close, k)
    requires !Contains(body, Open)
    ensures CleanThinking(Open + t + Close + body) == Strip(body)
  {
    var reply := Open + t + Close + body;
    assert OccursAt(reply, Open, 0) by { assert reply[..|Open|] == Open; }
    var j := |Open| + |t|;
    assert OccursAt(reply, Close, j) by { assert reply[j..j + |Close|] == Close; }
    RemoveLeadingBlock(t, body);
  }

  /** Python's `str(v)` for the values `f"{k}: {v}"` prints: a str as
      itself, None, True and False by name; numbers, lists and dicts by the
      supplied `render`. */
  function PyStr(v: Json, render: Json -> string): string {
    match v
    case JStr(s) => s
    case JNull => "None"
    case JBool(b) => if b then "True" else "False"
    case _ => render(v)
  }

  function NoteEntries(notes: Fields, render: Json -> string): (r: seq<string>)
    ensures |r| == |notes|
    ensures forall i :: 0 <= i < |notes| ==> r[i] == notes[i].0 + ": " + PyStr(notes[i].1, render)
  {
    seq(|notes|, i requires 0 <= i < |notes| => notes[i].0 + ": " + PyStr(notes[i].1, render))
  }

  /** `" ".join([f"{k}: {v}" for k, v in notes.items()])`. */
  function Flatten(notes: Fields, render: Json -> string): string {
    Join(NoteEntries(notes, render), " ")
  }

  /** Each further note adds one space and its "key: value" text. */
  lemma FlattenAppend(notes: Fields, key: string, value: Json, render: Json -> string)
    ensures Flatten(notes + [(key, value)], render) ==
      (if |notes| == 0 then "" else Flatten(notes, render) + " ") + key + ": " + PyStr(value, render)
  {
    assert NoteEntries(notes + [(key, value)], render)
        == NoteEntries(notes, render) + [key + ": " + PyStr(value, render)];
    JoinAppend(NoteEntries(notes, render), key + ": " + PyStr(value, render), " ");
  }

  /** `if isinstance(result.get('additional_notes'), dict)`: a dict of notes
      becomes one line of text in its place; nothing else changes. */
  function FlattenNotes(f: Fields, render: Json -> string): (r: Fields)
    ensures Keys(r) == Keys(f)
    ensures forall k :: k != "additional_notes" ==> Get(r, k) == Get(f, k)
    ensures match Get(f, "additional_notes")
            case Some(JObj(notes)) => Get(r, "additional_notes") == Some(JStr(Flatten(notes, render)))
            case _ => r == f
    ensures UniqueKeys(f) ==> UniqueKeys(r)
  {
    match Get(f, "additional_notes")
    case Some(JObj(notes)) => Assign(f, "additional_notes", JStr(Flatten(notes, render)))
    case _ => f
  }

  /** The three `setdefault` calls. */
  function Defaults(f: Fields): (r: Fields)
    ensures Keys(r) == Keys(f) + {"symptoms", "additional_notes", "recovery_plan"}
    ensures forall k :: Has(f, k) ==> Get(r, k) == Get(f, k)
    ensures !Has(f, "symptoms") ==> Get(r, "symptoms") == Some(JArr([]))
    ensures !Has(f, "recovery_plan") ==> Get(r, "recovery_plan") == Some(JArr([]))
    ensures !Has(f, "additional_notes") ==> Get(r, "additional_notes") == Some(JStr(""))
    ensures UniqueKeys(f) ==> UniqueKeys(r)
  {
    var withSymptoms := SetDefault(f, "symptoms", JArr([]));
    var withNotes := SetDefault(withSymptoms, "additional_notes", JStr(""));
    SetDefault(withNotes, "recovery_plan", JArr([]))
  }

  /** What happens to an accepted object: a dict `additional_notes` is
      flattened to text in place; then `symptoms`, `additional_notes` and
      `recovery_plan` are defaulted to [], "" and [] when absent. Every
      other value is kept as parsed. */
  function Normalize(f: Fields, render: Json -> string): (r: Fields)
    ensures Keys(r) == Keys(f) + {"symptoms", "additional_notes", "recovery_plan"}
    ensures forall k :: k != "additional_notes" && Has(f, k) ==> Get(r, k) == Get(f, k)
    ensures !Has(f, "symptoms") ==> Get(r, "symptoms") == Some(JArr([]))
    ensures !Has(f, "recovery_plan") ==> Get(r, "recovery_plan") == Some(JArr([]))
    ensures !Has(f, "additional_notes") ==> Get(r, "additional_notes") == Some(JStr(""))
    ensures match Get(f, "additional_notes")
            case Some(JObj(notes)) => Get(r, "additional_notes") == Some(JStr(Flatten(notes, render)))
            case Some(v) => Get(r, "additional_notes") == Some(v)
            case None => true
    ensures UniqueKeys(f) ==> UniqueKeys(r)
  {
    var flat := FlattenNotes(f, render);
    var r := Defaults(flat);
    assert Has(f, "additional_notes") ==> Get(r, "additional_notes") == Get(flat, "additional_notes");
    r
  }

  /** The record returned when no method yields an acceptable object. */
  const Fallback: Fields := [
    ("disease", JStr("Unable to analyze")),
    ("crop", JStr("Unknown")),
    ("confidence", JNum(50.0)),
    ("severity", JStr("unknown")),
    ("symptoms", JArr([JStr("Could not parse AI response")])),
    ("treatment", JStr("The AI model returned an unexpected format. Please try again with a different image or check the backend logs.")),
    ("affected_area", JStr("N/A")),
    ("additional_notes", JStr("Unable to parse the AI response. This may be a temporary issue with the model.")),
    ("recovery_plan", JArr([]))
  ]

  /** The fallback names the failure and carries the normalised keys,
      with an empty recovery plan. */
  lemma FallbackRecord()
    ensures Get(Fallback, "disease") == Some(JStr("Unable to analyze"))
    ensures Get(Fallback, "crop") == Some(JStr("Unknown"))
    ensures Get(Fallback, "confidence") == Some(JNum(50.0))
    ensures Get(Fallback, "severity") == Some(JStr("unknown"))
    ensures Get(Fallback, "recovery_plan") == Some(JArr([]))
    ensures NormalisedKeys(Fallback)
    ensures UniqueKeys(Fallback)
  {
    FallbackKeysDistinct();
    GetAt(Fallback, 0);
    GetAt(Fallback, 1);
    GetAt(Fallback, 2);
    GetAt(Fallback, 3);
    GetAt(Fallback, 4);
    GetAt(Fallback, 7);
    GetAt(Fallback, 8);
  }

  /** The fallback's keys, in order. */
  const FallbackNames: seq<string> :=
    ["disease", "crop", "confidence", "severity", "symptoms", "treatment",
     "affected_area", "additional_notes", "recovery_plan"]

  /** A name outside that list reads as missing from the fallback. */
  lemma NotAFallbackKey(key: string)
    requires key !in FallbackNames
    ensures !Has(Fallback, key) && Get(Fallback, key) == None
  {
    assert forall i :: 0 <= i < |Fallback| ==> Fallback[i].0 == FallbackNames[i];
    Absent(Fallback, key);
  }

  /** The fallback is a well-formed dictionary. */
  lemma FallbackKeysDistinct()
    ensures UniqueKeys(Fallback)
  {
    assert forall i :: 0 <= i < |Fallback| ==> Fallback[i].0 == FallbackNames[i];
  }

  /** The keys every record of the current backend carries: the two the
      extraction demands and the three the normalisation adds. (The crop
      doctor screen reads other fields, which no record guarantees.) */
  predicate NormalisedKeys(rec: Fields) {
    && Has(rec, "disease") && Has(rec, "crop") && Has(rec, "symptoms")
    && Has(rec, "additional_notes") && Has(rec, "recovery_plan")
  }

  /** What the cascade's outcome comes to: the normalised object, the
      exception passed on, or the fallback record. */
  function Outcome(p: Pick, render: Json -> string): (r: Analysis)
    requires p.Picked? ==> Has(p.fields, "disease") && Has(p.fields, "crop")
    ensures r.Returned? ==> NormalisedKeys(r.record)
  {
    match p
    case Picked(f) =>
      NormalizeKeys(f, render);
      Returned(Normalize(f, render))
    case Raised => Failed
    case NoneAccepted =>
      FallbackRecord();
      Returned(Fallback)
  }

  /** An accepted object, once normalised, carries the normalised keys. */
  lemma NormalizeKeys(f: Fields, render: Json -> string)
    requires Has(f, "disease") && Has(f, "crop")
    ensures NormalisedKeys(Normalize(f, render))
  {
    var r := Normalize(f, render);
    assert Keys(r) == Keys(f) + {"symptoms", "additional_notes", "recovery_plan"};
  }

  /** `analyze_crop_disease` from the model's reply onward. */
  function Analyze(reply: string, parse: string -> Option<Json>,
                   findAll: string -> seq<string>, render: Json -> string): (r: Analysis)
    ensures r.Returned? ==> NormalisedKeys(r.record)
  {
    Outcome(Cascade(CleanThinking(reply), parse, findAll), render)
  }

  /** Candidate `k` is the first one not rejected. */
  predicate DecidesAt(cs: seq<string>, parse: string -> Option<Json>, k: int) {
    && 0 <= k < |cs| && !Judge(parse(cs[k])).Reject?
    && forall j :: 0 <= j < k ==> Judge(parse(cs[j])).Reject?
  }

  /** Every candidate is rejected. */
  predicate AllRejected(cs: seq<string>, parse: string -> Option<Json>) {
    forall k :: 0 <= k < |cs| ==> Judge(parse(cs[k])).Reject?
  }

  /** `rec` is the normalised form of the deciding candidate's object. */
  ghost predicate NormalizedFromDecider(cs: seq<string>, parse: string -> Option<Json>,
                                  rec: Fields, render: Json -> string) {
    exists k, f :: DecidesAt(cs, parse, k) && parse(cs[k]) == Some(JObj(f))
                   && Has(f, "disease") && Has(f, "crop") && rec == Normalize(f, render)
  }

  /** The deciding candidate raised. */
  ghost predicate DeciderRaised(cs: seq<string>, parse: string -> Option<Json>) {
    exists k :: DecidesAt(cs, parse, k) && Judge(parse(cs[k])).Raise?
  }

  /** How the first decisive verdict over the candidates becomes the
      analysis. */
  lemma OutcomeSource(cs: seq<string>, parse: string -> Option<Json>, render: Json -> string)
    ensures var p := FirstDecisive(Verdicts(cs, parse));
      match Outcome(p, render)
      case Returned(rec) =>
        (rec == Fallback && AllRejected(cs, parse)) || NormalizedFromDecider(cs, parse, rec, render)
      case Failed => DeciderRaised(cs, parse)
  {
    var vs := Verdicts(cs, parse);
    match FirstDecisive(vs)
    case Picked(f) =>
      var k :| 0 <= k < |vs| && vs[k] == Accept(f) && forall j :: 0 <= j < k ==> vs[j].Reject?;
      assert DecidesAt(cs, parse, k);
      assert parse(cs[k]) == Some(JObj(f));
      assert NormalizedFromDecider(cs, parse, Normalize(f, render), render);
    case Raised =>
      var k :| 0 <= k < |vs| && vs[k].Raise? && forall j :: 0 <= j < k ==> vs[j].Reject?;
      assert DecidesAt(cs, parse, k);
    case NoneAccepted =>
  }

  /** The returned record is the fallback exactly when every candidate is
      rejected; otherwise it is the normalised form of the first candidate
      that is not rejected, which parsed to an object with both keys. A
      failure means the first candidate not rejected raised. */
  lemma AnalyzeSource(reply: string, parse: string -> Option<Json>,
                      findAll: string -> seq<string>, render: Json -> string)
    ensures var cs := Candidates(CleanThinking(reply), findAll);
      match Analyze(reply, parse, findAll, render)
      case Returned(rec) =>
        (rec == Fallback && AllRejected(cs, parse)) || NormalizedFromDecider(cs, parse, rec, render)
      case Failed => DeciderRaised(cs, parse)
  {
    var text := CleanThinking(reply);
    CascadeOrder(text, parse, findAll);
    OutcomeSource(Candidates(text, findAll), parse, render);
  }

  /** `diagnose_crop` of the current backend. `reply` is the model's reply
      text, or `None` when the model call raised. */
  function Diagnose(aiReady: bool, upload: Upload, reply: Option<string>,
                    parse: string -> Option<Json>, findAll: string -> seq<string>,
                    render: Json -> string, errorText: string): (r: Response)
    ensures r.status == 200 ==> NormalisedKeys(r.body)
    ensures r.status == 500 ==> reply.None? || Analyze(reply.value, parse, findAll, render).Failed?
  {
    Respond(aiReady, upload,
            if reply.Some? then Analyze(reply.value, parse, findAll, render) else Failed,
            errorText)
  }
}
