/** The Smart Planner page: choosing the field to scan from the browser's
    geolocation, the request it sends, and how the reply fills the field
    card, the recommendation cards and the error line. */
module SmartPlanner {
  import opened Wrappers
  import opened JsonValue
  import opened JsValue

  /** The Coimbatore demo farm, [min_lat, min_lon, max_lat, max_lon]. */
  const DemoFarmBox: seq<real> := [11.0168, 76.9558, 11.0268, 76.9658]

  const InitialStatus: string := "Using Default Location"
  const LiveStatus: string := "\U{1F4CD} Using Your Live Location"
  const UnsupportedStatus: string := "\U{26A0}\U{FE0F} Geolocation not supported"
  const DemoSuffix: string := " - Using Demo Farm"

  datatype Position = Position(latitude: real, longitude: real)

  /** What `navigator.geolocation` gave: no API at all, a position, or an
      error with its numeric code. */
  datatype Geolocation = Unsupported | Located(position: Position) | Refused(code: int)

  /** The box of half-side 0.005 degrees (about 1 km) around a position. */
  function BoxAround(p: Position): (b: seq<real>)
    ensures |b| == 4
    ensures (b[0] + b[2]) / 2.0 == p.latitude && (b[1] + b[3]) / 2.0 == p.longitude
    ensures b[2] - b[0] == 0.01 && b[3] - b[1] == 0.01
  {
    [p.latitude - 0.005, p.longitude - 0.005, p.latitude + 0.005, p.longitude + 0.005]
  }

  /** The text of a geolocation error: codes 1, 2 and 3 have their own. */
  function RefusalText(code: int): string {
    if code == 3 then "\U{26A0}\U{FE0F} GPS Timeout"
    else if code == 2 then "\U{26A0}\U{FE0F} Signal Unavailable"
    else if code == 1 then "\U{26A0}\U{FE0F} Permission Denied"
    else "\U{26A0}\U{FE0F} Location Error"
  }

  /** `getUserLocation`: the status line shown and the box passed to
      `fetchRecommendations` (`None` when it is called without one). */
  function LocationStatus(g: Geolocation): string {
    match g
    case Unsupported => UnsupportedStatus
    case Located(_) => LiveStatus
    case Refused(code) => RefusalText(code) + DemoSuffix
  }

  function CustomBox(g: Geolocation): Option<seq<real>> {
    if g.Located? then Some(BoxAround(g.position)) else None
  }

  /** `customBox || [demo farm]`. */
  function BoxToSend(custom: Option<seq<real>>): seq<real> {
    custom.GetOr(DemoFarmBox)
  }

  /** Only a located browser scans its own surroundings; every refusal and a
      browser without geolocation scan the demo farm, and the status line
      says which. */
  lemma LocationChoice(g: Geolocation)
    ensures g.Located? ==> BoxToSend(CustomBox(g)) == BoxAround(g.position)
                           && LocationStatus(g) == LiveStatus
    ensures !g.Located? ==> BoxToSend(CustomBox(g)) == DemoFarmBox
    ensures BoxToSend(None) == DemoFarmBox
    ensures g.Refused? ==> LocationStatus(g) == RefusalText(g.code) + DemoSuffix
  {
    match g
    case Located(p) =>
      assert CustomBox(g) == Some(BoxAround(p));
    case Refused(code) =>
      assert CustomBox(g) == None;
      assert LocationStatus(g) == RefusalText(code) + DemoSuffix;
    case Unsupported =>
      assert CustomBox(g) == None;
  }

  /** The status line after a refusal: "Permission Denied" for code 1, and
      the generic "Location Error" for any code the page does not know. */
  lemma RefusalStatus(code: int)
    ensures code == 1 ==>
      LocationStatus(Refused(code)) == "\U{26A0}\U{FE0F} Permission Denied - Using Demo Farm"
    ensures !(1 <= code <= 3) ==>
      LocationStatus(Refused(code)) == "\U{26A0}\U{FE0F} Location Error - Using Demo Farm"
  {
    if code == 1 {
      assert RefusalText(code) == "\U{26A0}\U{FE0F} Permission Denied";
    } else if !(1 <= code <= 3) {
      assert RefusalText(code) == "\U{26A0}\U{FE0F} Location Error";
    }
  }

  /** The JSON body posted: the box and fixed climate values, and no soil
      type. */
  function RequestBody(box: seq<real>): (r: Fields)
    ensures Keys(r) == {"coords", "temperature", "humidity", "rainfall"}
    ensures !Has(r, "soil_type")
    ensures UniqueKeys(r)
  {
    var r := [("coords", JArr(seq(|box|, i requires 0 <= i < |box| => JNum(box[i])))),
              ("temperature", JNum(28.0)), ("humidity", JNum(65.0)), ("rainfall", JNum(120.0))];
    assert r[0].0 == "coords" && r[1].0 == "temperature" && r[2].0 == "humidity" && r[3].0 == "rainfall";
    r
  }

  /** The six values on the field card. */
  datatype FieldCard = FieldCard(area: string, soil: string, ph: string,
                                 n: string, p: string, k: string)

  const InitialCard: FieldCard := FieldCard("5.2 Acres", "Red Loam", "6.8", "Medium", "High", "Medium")

  /** The page state `fetchRecommendations` writes. `error` is whatever
      value was stored (the client stores `data.message` unchecked), and
      `recommendations` whatever `.slice(0, 3)` returned. */
  datatype PlannerView = PlannerView(loading: bool, error: Option<Json>, card: FieldCard,
                                     recommendations: Json, locationStatus: string)

  const InitialView: PlannerView := PlannerView(true, None, InitialCard, JArr([]), InitialStatus)

  /** The start of `fetchRecommendations`: loading on, error cleared,
      everything else as it was. */
  function Begin(v: PlannerView): (r: PlannerView)
    ensures r.loading && r.error.None?
    ensures r.card == v.card && r.recommendations == v.recommendations
    ensures r.locationStatus == v.locationStatus
  {
    v.(loading := true, error := None)
  }

  const ConnectHint: string := "Connect to local AI backend to view live analysis"
  const FetchFailedText: string := "Failed to fetch data"

  /** How the request ended: no response at all, a body that is not JSON,
      or the parsed body. The HTTP status is never looked at. */
  datatype PlannerReply = NoResponse | NotJson | Body(data: Json)

  /** "High" above `high`, "Medium" above `medium`, else "Low"; a value
      that is missing or not a number compares false. */
  function Level(v: Option<Json>, high: real, medium: real, e: Engine): (r: string)
    ensures r in {"High", "Medium", "Low"}
    ensures r == "High" <==> Above(v, high, e)
    ensures r == "Medium" <==> !Above(v, high, e) && Above(v, medium, e)
  {
    if Above(v, high, e) then "High" else if Above(v, medium, e) then "Medium" else "Low"
  }

  /** `x.slice(0, 3)` on the received recommendations: the first three
      items of an array or characters of a string; `None` for a TypeError
      on anything else. */
  function FirstThree(v: Option<Json>): (r: Option<Json>)
    ensures r.Some? <==> v.Some? && (v.value.JArr? || v.value.JStr?)
    ensures r.Some? && v.value.JArr? ==>
      r.value.JArr? && |r.value.items| <= 3 && r.value.items <= v.value.items
      && (|v.value.items| >= 3 ==> |r.value.items| == 3)
    ensures r.Some? && v.value.JStr? ==> r.value.JStr? && |r.value.s| <= 3 && r.value.s <= v.value.s
  {
    match v
    case Some(JArr(xs)) => Some(JArr(if |xs| <= 3 then xs else xs[..3]))
    case Some(JStr(s)) => Some(JStr(if |s| <= 3 then s else s[..3]))
    case _ => None
  }

  /** `fetchRecommendations` from the moment the reply is in, through the
      `finally` clause. The card is rebuilt from the one the handler closed
      over, here `v.card`. */
  function Fetched(v: PlannerView, reply: PlannerReply, e: Engine): (r: PlannerView)
    ensures !r.loading
    ensures r.locationStatus == v.locationStatus
    ensures r.card.area == v.card.area && r.card.soil == v.card.soil
    ensures r.error.None? ==>
      reply.Body? && !reply.data.JNull? && Prop(reply.data, "status") == Some(JStr("success"))
    ensures reply.Body? && !reply.data.JNull? && Prop(reply.data, "status") != Some(JStr("success")) ==>
      r.error == Some(Or(Prop(reply.data, "message"), JStr(FetchFailedText))) && r.card == v.card
    ensures !reply.Body? || reply.data.JNull? ==> r.error == Some(JStr(ConnectHint)) && r.card == v.card
    ensures r.recommendations != v.recommendations ==> r.error.None?
  {
    var failed := v.(loading := false, error := Some(JStr(ConnectHint)));
    match reply
    case NoResponse => failed
    case NotJson => failed
    case Body(data) =>
      if data.JNull? then failed
      else if Prop(data, "status") != Some(JStr("success")) then
        v.(loading := false, error := Some(Or(Prop(data, "message"), JStr(FetchFailedText))))
      else
        match Prop(data, "soil_data")
        case None => failed
        case Some(soil) =>
          if soil.JNull? then failed
          else
            match Prop(soil, "ph")
            case None => failed
            case Some(ph) =>
              if ph.JNull? then failed
              else
                var card := v.card.(ph := JsString(ph, e),
                                    n := Level(Prop(soil, "n"), 100.0, 50.0, e),
                                    p := Level(Prop(soil, "p"), 50.0, 20.0, e),
                                    k := Level(Prop(soil, "k"), 40.0, 10.0, e));
                match FirstThree(Prop(data, "recommendations"))
                case None => v.(loading := false, error := Some(JStr(ConnectHint)), card := card)
                case Some(recs) => v.(loading := false, error := None, card := card, recommendations := recs)
  }

  /** A well-formed success reply fills the card from the soil values and
      shows the first three recommendations without an error. */
  lemma SuccessFillsCard(v: PlannerView, data: Fields, soil: Fields, recs: seq<Json>, e: Engine)
    requires Get(data, "status") == Some(JStr("success"))
    requires Get(data, "soil_data") == Some(JObj(soil))
    requires Get(data, "recommendations") == Some(JArr(recs))
    requires Has(soil, "ph") && !Get(soil, "ph").value.JNull?
    ensures var r := Fetched(v, Body(JObj(data)), e);
      && r.error.None?
      && r.recommendations == JArr(if |recs| <= 3 then recs else recs[..3])
      && r.card.ph == JsString(Get(soil, "ph").value, e)
      && r.card.n == Level(Get(soil, "n"), 100.0, 50.0, e)
      && r.card.p == Level(Get(soil, "p"), 50.0, 20.0, e)
      && r.card.k == Level(Get(soil, "k"), 40.0, 10.0, e)
  {
  }

  /** A success reply without a usable `recommendations` list still
      updates the card (the assignment before `.slice` has run) but then
      shows the connection hint and keeps the old cards. */
  lemma CardUpdatedBeforeSliceFails(v: PlannerView, data: Fields, soil: Fields, e: Engine)
    requires Get(data, "status") == Some(JStr("success"))
    requires Get(data, "soil_data") == Some(JObj(soil))
    requires Has(soil, "ph") && !Get(soil, "ph").value.JNull?
    requires !Has(data, "recommendations")
    ensures var r := Fetched(v, Body(JObj(data)), e);
      && r.error == Some(JStr(ConnectHint))
      && r.recommendations == v.recommendations
      && r.card.ph == JsString(Get(soil, "ph").value, e)
  {
  }

  /** A soil reading without a nitrogen value is shown as "Low": the
      comparisons with `undefined` are false. */
  lemma MissingNutrientIsLow(e: Engine)
    ensures Level(None, 100.0, 50.0, e) == "Low"
    ensures Level(Some(JNull), 100.0, 50.0, e) == "Low"
  {
    NeverAbove(None, 100.0, e);
    NeverAbove(None, 50.0, e);
    NeverAbove(Some(JNull), 100.0, e);
    NeverAbove(Some(JNull), 50.0, e);
  }

  /** A numeric nitrogen value is "High" above 100 ppm and "Medium" above
      50. */
  lemma NitrogenLevels(n: real, e: Engine)
    ensures Level(Some(JNum(n)), 100.0, 50.0, e) ==
      (if n > 100.0 then "High" else if n > 50.0 then "Medium" else "Low")
  {
  }

  /** The yield label under a recommendation card: "high" only when the
      card's `score` is above 80; a card without `score` is "moderate".
      `None` where `rec.score` throws, on a null card. */
  function YieldLabel(rec: Json, e: Engine): (r: Option<string>)
    ensures r.None? <==> rec.JNull?
    ensures r.Some? ==> (r.value == "high" <==> Above(Prop(rec, "score"), 80.0, e))
    ensures r.Some? ==> r.value == "high" || r.value == "moderate"
  {
    if rec.JNull? then None
    else if Above(Prop(rec, "score"), 80.0, e) then Some("high")
    else Some("moderate")
  }

  /** A whole fetch, from its start to its `finally`: the page never stays
      loading, the location line is untouched, and the error line is clear
      exactly when a success reply was fully shown. */
  lemma FetchSettles(v: PlannerView, reply: PlannerReply, e: Engine)
    ensures var r := Fetched(Begin(v), reply, e);
      && !r.loading && r.locationStatus == v.locationStatus
      && (r.error.None? ==> reply.Body? && !reply.data.JNull?
                             && Prop(reply.data, "status") == Some(JStr("success")))
      && (r.error.Some? ==> r.recommendations == v.recommendations)
  {
  }
}
