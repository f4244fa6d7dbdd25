/** The `/api/planner/recommend_satellite` endpoint of the current backend:
    CORS preflight, request defaults, cleaning of the language model's
    reply, and the location echo added to the parsed answer. */
module PlannerRoute {
  import opened Wrappers
  import opened JsonValue
  import opened PyText
  import opened Extraction
  import opened DiagnoseRoute

  datatype Method = Post | Options

  const FailedMessage: string := "Failed to generate crop recommendations"

  /** The demo farm near Coimbatore, as [min_lat, min_lon, max_lat, max_lon]. */
  const DefaultCoords: Json := JArr([JNum(11.0168), JNum(76.9558), JNum(11.0268), JNum(76.9658)])
  const DefaultSoil: Json := JStr("Red Loam")
  const DefaultTemperature: Json := JNum(28.0)
  const DefaultHumidity: Json := JNum(65.0)
  const DefaultRainfall: Json := JNum(120.0)

  /** The five request values the prompt is built from. */
  datatype FieldData = FieldData(coords: Json, soilType: Json, temperature: Json,
                                 humidity: Json, rainfall: Json)

  /** `data.get(name, default)` for each value: a key that is present wins,
      even when its value is null. */
  function ReadFieldData(data: Fields): (r: FieldData)
    ensures !Has(data, "coords") ==> r.coords == DefaultCoords
    ensures !Has(data, "soil_type") ==> r.soilType == DefaultSoil
    ensures !Has(data, "temperature") ==> r.temperature == DefaultTemperature
    ensures !Has(data, "humidity") ==> r.humidity == DefaultHumidity
    ensures !Has(data, "rainfall") ==> r.rainfall == DefaultRainfall
    ensures Has(data, "coords") ==> Some(r.coords) == Get(data, "coords")
    ensures Has(data, "soil_type") ==> Some(r.soilType) == Get(data, "soil_type")
    ensures Has(data, "temperature") ==> Some(r.temperature) == Get(data, "temperature")
    ensures Has(data, "humidity") ==> Some(r.humidity) == Get(data, "humidity")
    ensures Has(data, "rainfall") ==> Some(r.rainfall) == Get(data, "rainfall")
  {
    FieldData(Get(data, "coords").GetOr(DefaultCoords),
              Get(data, "soil_type").GetOr(DefaultSoil),
              Get(data, "temperature").GetOr(DefaultTemperature),
              Get(data, "humidity").GetOr(DefaultHumidity),
              Get(data, "rainfall").GetOr(DefaultRainfall))
  }

  /** The `location` object echoed back: everything but the soil type. */
  function Location(d: FieldData): (r: Json)
    ensures r.JObj? && !Has(r.fields, "soil_type")
    ensures Get(r.fields, "coords") == Some(d.coords)
    ensures Get(r.fields, "temperature") == Some(d.temperature)
    ensures Get(r.fields, "humidity") == Some(d.humidity)
    ensures Get(r.fields, "rainfall") == Some(d.rainfall)
  {
    var f := [("coords", d.coords), ("temperature", d.temperature),
              ("humidity", d.humidity), ("rainfall", d.rainfall)];
    Absent(f, "soil_type");
    GetAt(f, 0);
    GetAt(f, 1);
    GetAt(f, 2);
    GetAt(f, 3);
    JObj(f)
  }

  /** Thinking blocks are removed (and the rest stripped) as soon as the
      opening tag occurs; then the text of a "```json" fence, else of a
      plain "```" fence, is taken. */
  function CleanReply(reply: string): (r: string)
    ensures |r| <= |reply|
    ensures !Contains(reply, Open) && !Contains(reply, FenceMark) ==> r == reply
  {
    var t := if Contains(reply, Open) then Strip(RemoveThinking(reply)) else reply;
    JsonFenceIsFence(reply);
    if Contains(t, JsonFenceMark) then FenceText(t, JsonFenceMark)
    else if Contains(t, FenceMark) then FenceText(t, FenceMark)
    else t
  }

  /** Every "```json" mark begins with a plain "```" mark. */
  lemma JsonFenceIsFence(s: string)
    ensures Contains(s, JsonFenceMark) ==> Contains(s, FenceMark)
  {
    if Contains(s, JsonFenceMark) {
      var i :| 0 <= i <= |s| && OccursAt(s, JsonFenceMark, i);
      assert s[i..i + |FenceMark|] == s[i..i + |JsonFenceMark|][..|FenceMark|];
      assert OccursAt(s, FenceMark, i);
    }
  }

  /** The fenced text, which is never longer than the whole. */
  function FenceText(t: string, mark: string): (r: string)
    requires mark == JsonFenceMark || mark == FenceMark
    requires Contains(t, mark)
    ensures |r| <= |t|
  {
    FenceShorter(t);
    if mark == JsonFenceMark then JsonFence(t).value else AnyFence(t).value
  }

  /** Neither fence text is longer than the text it is cut from. */
  lemma FenceShorter(t: string)
    ensures Contains(t, JsonFenceMark) ==> |JsonFence(t).value| <= |t|
    ensures Contains(t, FenceMark) ==> |AnyFence(t).value| <= |t|
  {
    if Contains(t, JsonFenceMark) {
      var p, u, v, q1, seg, q2 := JsonFenceCuts(t);
      JsonFenceSegment(t, p, u, v, q1, seg, q2);
    }
    if Contains(t, FenceMark) {
      var p, u, seg, q := AnyFenceCuts(t);
      AnyFenceSegment(t, p, u, seg, q);
    }
  }

  /** `recommend_satellite`. `body` is what `request.get_json()` gave,
      `reply` the model's answer (`None` when the call raised, as it does
      when no Groq client was configured), `parse` is `json.loads`, and
      `errorText` stands for `str(e)` of any exception. */
  function Recommend(verb: Method, body: Option<Json>, reply: Option<string>,
                     parse: string -> Option<Json>, errorText: string): (r: Response)
    ensures r.status == 200 || r.status == 500
    ensures verb.Options? ==> r.status == 200 && Get(r.body, "status") == Some(JStr("ok"))
    ensures verb.Post? && !(body.Some? && body.value.JObj?) ==> r.status == 500
    ensures verb.Post? && reply.None? ==> r.status == 500
    ensures verb.Post? && reply.Some?
            && !(parse(CleanReply(reply.value)).Some? && parse(CleanReply(reply.value)).value.JObj?)
            ==> r.status == 500
    ensures r.status == 500 ==> Get(r.body, "error") == Some(JStr(errorText))
                                && Get(r.body, "message") == Some(JStr(FailedMessage))
    ensures verb.Post? && r.status == 200 ==>
      && body.Some? && body.value.JObj? && reply.Some?
      && Get(r.body, "location") == Some(Location(ReadFieldData(body.value.fields)))
  {
    var failed := [("error", JStr(errorText)), ("message", JStr(FailedMessage))];
    GetAt(failed, 0);
    GetAt(failed, 1);
    if verb.Options? then
      GetAt([("status", JStr("ok"))], 0);
      Response(200, [("status", JStr("ok"))])
    else if !(body.Some? && body.value.JObj?) || reply.None? then
      Response(500, failed)
    else
      match parse(CleanReply(reply.value))
      case Some(JObj(answer)) =>
        Response(200, Assign(answer, "location", Location(ReadFieldData(body.value.fields))))
      case _ => Response(500, failed)
  }

  /** A successful answer is the model's object with `location` added or
      replaced, and nothing else changed. */
  lemma AnswerKeptWithLocation(body: Fields, reply: string, parse: string -> Option<Json>,
                               errorText: string, answer: Fields)
    requires parse(CleanReply(reply)) == Some(JObj(answer))
    ensures var r := Recommend(Post, Some(JObj(body)), Some(reply), parse, errorText);
      && r.status == 200
      && Keys(r.body) == Keys(answer) + {"location"}
      && (forall k :: k != "location" ==> Get(r.body, k) == Get(answer, k))
  {
  }

  /** An answer that is valid JSON but not an object fails with 500, as
      item assignment on a list, string or number raises TypeError. */
  lemma NonObjectAnswerFails(body: Fields, reply: string, parse: string -> Option<Json>,
                             errorText: string)
    requires parse(CleanReply(reply)).Some? && !parse(CleanReply(reply)).value.JObj?
    ensures Recommend(Post, Some(JObj(body)), Some(reply), parse, errorText).status == 500
  {
  }

  /** An empty request body gets the demo farm, Red Loam, 28 degrees, 65%
      humidity and 120 mm of rain. */
  lemma EmptyBodyDefaults()
    ensures ReadFieldData([]) ==
      FieldData(DefaultCoords, DefaultSoil, DefaultTemperature, DefaultHumidity, DefaultRainfall)
  {
  }

  /** A reply whose answer sits in a "```json" fence (and that has no
      thinking tag) is read from the stripped text inside the fence: what
      follows the first "```json", cut at the next "```json" and then at
      the first "```". */
  lemma FencedAnswer(reply: string, p: string, u: string, v: string, q1: string,
                     seg: string, q2: string)
    requires !Contains(reply, Open)
    requires MarkAt(reply, JsonFenceMark, p, u)
    requires CutAt(u, JsonFenceMark, v, q1) && CutAt(v, FenceMark, seg, q2)
    ensures CleanReply(reply) == Strip(seg)
  {
    assert Contains(reply, JsonFenceMark) by {
      assert OccursAt(reply, JsonFenceMark, |p|);
    }
    JsonFenceSegment(reply, p, u, v, q1, seg, q2);
  }

  /** Unlike the diagnosis cleaner, the planner strips the reply on the
      opening tag alone: an unclosed thinking tag is kept but surrounding
      white space goes. */
  lemma UnclosedThinkingStripped(reply: string)
    requires Contains(reply, Open) && !Contains(reply, Close)
    requires !Contains(Strip(reply), FenceMark)
    ensures CleanReply(reply) == Strip(reply)
  {
    JsonFenceIsFence(Strip(reply));
  }
}
