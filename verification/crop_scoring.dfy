/** The rule-based crop recommender: each crop's ideal ranges for seven soil
    and climate parameters, a match score per crop, and the ranking of the
    crops that score anything. */
module CropScoring {
  import opened Wrappers
  import opened Agrolens

  /** An ideal `(min, max)` range. */
  datatype Range = Range(lo: real, hi: real)

  /** One crop's entry in the requirements table. */
  datatype Requirement = Requirement(crop: string, n: Range, p: Range, k: Range,
                                     temp: Range, humidity: Range, ph: Range, rainfall: Range)
  {
    /** The ranges in the order the parameters are scored. */
    function Ranges(): seq<Range> { [n, p, k, temp, humidity, ph, rainfall] }
  }

  /** The seven values a recommendation is asked for. */
  datatype Reading = Reading(n: real, p: real, k: real, temp: real,
                             humidity: real, ph: real, rainfall: real)
  {
    function Values(): seq<real> { [n, p, k, temp, humidity, ph, rainfall] }
  }

  datatype Recommendation = Recommendation(crop: string, score: real)

  /** The requirements table, in its declaration order. */
  const Table: seq<Requirement> := [
    Requirement("rice", Range(60.0, 99.0), Range(35.0, 60.0), Range(35.0, 45.0),
                Range(20.0, 27.0), Range(80.0, 85.0), Range(5.0, 7.0), Range(150.0, 300.0)),
    Requirement("maize", Range(60.0, 100.0), Range(35.0, 60.0), Range(15.0, 25.0),
                Range(18.0, 27.0), Range(55.0, 70.0), Range(5.5, 7.0), Range(60.0, 110.0)),
    Requirement("wheat", Range(70.0, 100.0), Range(30.0, 50.0), Range(25.0, 45.0),
                Range(15.0, 25.0), Range(40.0, 60.0), Range(6.0, 7.5), Range(50.0, 100.0)),
    Requirement("cotton", Range(100.0, 140.0), Range(40.0, 60.0), Range(15.0, 25.0),
                Range(22.0, 35.0), Range(30.0, 60.0), Range(5.8, 8.0), Range(60.0, 100.0)),
    Requirement("coffee", Range(80.0, 120.0), Range(15.0, 30.0), Range(25.0, 40.0),
                Range(15.0, 25.0), Range(50.0, 65.0), Range(6.0, 6.5), Range(150.0, 250.0)),
    Requirement("grapes", Range(20.0, 45.0), Range(10.0, 30.0), Range(15.0, 30.0),
                Range(12.0, 40.0), Range(30.0, 70.0), Range(5.5, 7.0), Range(40.0, 100.0)),
    Requirement("orange", Range(10.0, 40.0), Range(5.0, 25.0), Range(5.0, 20.0),
                Range(10.0, 40.0), Range(70.0, 95.0), Range(6.0, 7.5), Range(80.0, 150.0)),
    Requirement("banana", Range(80.0, 120.0), Range(70.0, 95.0), Range(45.0, 55.0),
                Range(20.0, 35.0), Range(75.0, 85.0), Range(5.5, 7.5), Range(180.0, 250.0)),
    Requirement("tomato", Range(70.0, 100.0), Range(40.0, 60.0), Range(20.0, 30.0),
                Range(20.0, 25.0), Range(60.0, 70.0), Range(6.0, 7.0), Range(60.0, 100.0)),
    Requirement("potato", Range(80.0, 120.0), Range(40.0, 60.0), Range(15.0, 25.0),
                Range(15.0, 20.0), Range(70.0, 80.0), Range(5.0, 6.5), Range(50.0, 80.0)),
    Requirement("sugarcane", Range(150.0, 250.0), Range(50.0, 80.0), Range(40.0, 60.0),
                Range(20.0, 35.0), Range(50.0, 80.0), Range(6.0, 7.5), Range(150.0, 250.0)),
    Requirement("tea", Range(100.0, 150.0), Range(20.0, 40.0), Range(30.0, 50.0),
                Range(15.0, 30.0), Range(70.0, 90.0), Range(4.5, 5.5), Range(200.0, 300.0)),
    Requirement("pomegranate", Range(20.0, 50.0), Range(10.0, 25.0), Range(10.0, 25.0),
                Range(25.0, 35.0), Range(30.0, 50.0), Range(6.5, 8.0), Range(40.0, 80.0))
  ]

  /** Every range in the table is a proper interval. */
  lemma RangesProper()
    ensures |Table| == 13
    ensures forall i, j :: 0 <= i < |Table| && 0 <= j < 7 ==>
      Table[i].Ranges()[j].lo < Table[i].Ranges()[j].hi
  {
  }

  /** No crop is listed twice. */
  lemma CropsNamedOnce()
    ensures forall i, j :: 0 <= i < |Table| && 0 <= j < |Table| && Table[i].crop == Table[j].crop ==> i == j
  {
  }

  function Abs(x: real): real { if x >= 0.0 then x else -x }

  /** The range's width, taken as 1 for a degenerate range. */
  function Width(r: Range): (w: real)
    ensures w > 0.0
  {
    if r.hi > r.lo then r.hi - r.lo else 1.0
  }

  predicate Within(v: real, r: Range) { r.lo <= v <= r.hi }

  /** One parameter's credit: 1 inside the range, 0.5 when closer to one of
      its ends than a fifth of its width, 0 otherwise. */
  function ParamScore(v: real, r: Range): (s: real)
    ensures s == 0.0 || s == 0.5 || s == 1.0
    ensures s == 1.0 <==> Within(v, r)
    ensures r.lo <= r.hi ==>
      (s == 0.5 <==> (r.lo - Width(r) * 0.2 < v < r.lo) || (r.hi < v < r.hi + Width(r) * 0.2))
  {
    if Within(v, r) then 1.0
    else
      var diff := if Abs(v - r.lo) <= Abs(v - r.hi) then Abs(v - r.lo) else Abs(v - r.hi);
      if diff < Width(r) * 0.2 then 0.5 else 0.0
  }

  /** The seven credits added up, in parameter order. */
  function Credit(req: Requirement, x: Reading): (c: real)
    ensures 0.0 <= c <= 7.0
  {
    ParamScore(x.n, req.n) + ParamScore(x.p, req.p) + ParamScore(x.k, req.k)
      + ParamScore(x.temp, req.temp) + ParamScore(x.humidity, req.humidity)
      + ParamScore(x.ph, req.ph) + ParamScore(x.rainfall, req.rainfall)
  }

  /** Every parameter inside its range. */
  predicate Fits(req: Requirement, x: Reading) {
    forall j :: 0 <= j < 7 ==> Within(x.Values()[j], req.Ranges()[j])
  }

  /** Some parameter inside or near its range. */
  predicate Touches(req: Requirement, x: Reading) {
    exists j :: 0 <= j < 7 && ParamScore(x.Values()[j], req.Ranges()[j]) > 0.0
  }

  /** The percentage match: the credit over the seven parameters, times 100. */
  function CropScore(req: Requirement, x: Reading): (s: real)
    ensures 0.0 <= s <= 100.0
    ensures s == 100.0 <==> Fits(req, x)
    ensures s > 0.0 <==> Touches(req, x)
  {
    var vs := x.Values();
    var rs := req.Ranges();
    assert Fits(req, x) <==> Credit(req, x) == 7.0 by {
      if Credit(req, x) == 7.0 {
        forall j | 0 <= j < 7 ensures Within(vs[j], rs[j]) {
          assert ParamScore(vs[j], rs[j]) == 1.0;
        }
      }
      if Fits(req, x) {
        assert Within(vs[0], rs[0]) && Within(vs[1], rs[1]) && Within(vs[2], rs[2]);
        assert Within(vs[3], rs[3]) && Within(vs[4], rs[4]) && Within(vs[5], rs[5]);
        assert Within(vs[6], rs[6]);
      }
    }
    assert Touches(req, x) <==> Credit(req, x) > 0.0 by {
      if Credit(req, x) > 0.0 {
        if ParamScore(vs[0], rs[0]) > 0.0 { assert Touches(req, x); }
        else if ParamScore(vs[1], rs[1]) > 0.0 { assert Touches(req, x); }
        else if ParamScore(vs[2], rs[2]) > 0.0 { assert Touches(req, x); }
        else if ParamScore(vs[3], rs[3]) > 0.0 { assert Touches(req, x); }
        else if ParamScore(vs[4], rs[4]) > 0.0 { assert Touches(req, x); }
        else if ParamScore(vs[5], rs[5]) > 0.0 { assert Touches(req, x); }
        else { assert ParamScore(vs[6], rs[6]) > 0.0; }
      }
    }
    Credit(req, x) / 7.0 * 100.0
  }

  /** Each table entry's score, in table order. */
  function Scores(x: Reading): (r: seq<real>)
    ensures |r| == |Table|
    ensures forall i :: 0 <= i < |Table| ==> r[i] == CropScore(Table[i], x)
  {
    seq(|Table|, i requires 0 <= i < |Table| => CropScore(Table[i], x))
  }

  /** Entry `a` comes before entry `b` in a stable descending sort: a higher
      score, or an equal score and an earlier place in the table. */
  predicate Before(scores: seq<real>, a: nat, b: nat)
    requires a < |scores| && b < |scores|
  {
    scores[a] > scores[b] || (scores[a] == scores[b] && a < b)
  }

  /** Table indices in stable descending order of score. */
  predicate Ranked(scores: seq<real>, xs: seq<nat>) {
    && (forall k :: 0 <= k < |xs| ==> xs[k] < |scores|)
    && (forall j, k :: 0 <= j < k < |xs| ==> Before(scores, xs[j], xs[k]))
  }

  /** Places index `i`, later in the table than everything in `xs`, after
      every entry scoring at least as much. */
  function Insert(scores: seq<real>, xs: seq<nat>, i: nat): (r: seq<nat>)
    requires i < |scores| && Ranked(scores, xs)
    requires forall k :: 0 <= k < |xs| ==> xs[k] < i
    ensures Ranked(scores, r)
    ensures |r| == |xs| + 1
    ensures forall v :: v in r <==> v in xs || v == i
    decreases |xs|
  {
    if |xs| == 0 then [i]
    else if scores[xs[0]] >= scores[i] then
      var rest := Insert(scores, xs[1..], i);
      HeadBeforeInserted(scores, xs, i, rest);
      RankedCons(scores, xs[0], rest);
      assert forall v :: v in xs <==> v == xs[0] || v in xs[1..] by {
        assert xs == [xs[0]] + xs[1..];
      }
      [xs[0]] + rest
    else
      assert forall k :: 0 <= k < |xs| ==> Before(scores, i, xs[k]) by {
        forall k | 0 <= k < |xs| ensures Before(scores, i, xs[k]) {
          assert Before(scores, xs[0], xs[k]) || k == 0;
        }
      }
      RankedCons(scores, i, xs);
      [i] + xs
  }

  /** The head of a ranked list comes before everything in its tail with a
      later, no better scoring index inserted. */
  lemma HeadBeforeInserted(scores: seq<real>, xs: seq<nat>, i: nat, rest: seq<nat>)
    requires i < |scores| && Ranked(scores, xs) && |xs| > 0
    requires xs[0] < i && scores[xs[0]] >= scores[i]
    requires forall v :: v in rest <==> v in xs[1..] || v == i
    requires forall k :: 0 <= k < |rest| ==> rest[k] < |scores|
    ensures forall k :: 0 <= k < |rest| ==> Before(scores, xs[0], rest[k])
  {
    forall k | 0 <= k < |rest| ensures Before(scores, xs[0], rest[k]) {
      assert rest[k] in rest;
      if rest[k] != i {
        var a :| 0 <= a < |xs[1..]| && xs[1..][a] == rest[k];
        assert xs[a + 1] == rest[k];
      }
    }
  }

  /** A head that comes before every entry of a ranked tail keeps the list
      ranked. */
  lemma RankedCons(scores: seq<real>, a: nat, xs: seq<nat>)
    requires a < |scores| && Ranked(scores, xs)
    requires forall k :: 0 <= k < |xs| ==> Before(scores, a, xs[k])
    ensures Ranked(scores, [a] + xs)
  {
    var r := [a] + xs;
    forall j, k | 0 <= j < k < |r| ensures Before(scores, r[j], r[k]) {
      if j > 0 { assert r[j] == xs[j - 1] && r[k] == xs[k - 1]; }
      else { assert r[k] == xs[k - 1]; }
    }
  }

  /** The first `n` table entries, sorted stably by descending score: each
      index below `n` exactly once. */
  function Sort(scores: seq<real>, n: nat): (r: seq<nat>)
    requires n <= |scores|
    ensures Ranked(scores, r)
    ensures |r| == n
    ensures forall v: int :: v in r <==> 0 <= v < n
  {
    if n == 0 then []
    else
      var prev := Sort(scores, n - 1);
      assert forall k :: 0 <= k < |prev| ==> prev[k] < n - 1 by {
        forall k | 0 <= k < |prev| ensures prev[k] < n - 1 { assert prev[k] in prev; }
      }
      Insert(scores, prev, n - 1)
  }

  /** Entries scoring zero are dropped; the order of the rest is kept. */
  function KeepScored(scores: seq<real>, xs: seq<nat>): (r: seq<nat>)
    requires Ranked(scores, xs)
    ensures Ranked(scores, r)
    ensures forall v :: v in r <==> v in xs && scores[v] > 0.0
    ensures forall k :: 0 <= k < |r| ==> scores[r[k]] > 0.0
  {
    if |xs| == 0 then []
    else
      var rest := KeepScored(scores, xs[1..]);
      assert forall v :: v in xs <==> v == xs[0] || v in xs[1..];
      if scores[xs[0]] > 0.0 then [xs[0]] + rest else rest
  }

  /** Table indices of the recommended crops, best first. */
  function Ranking(x: Reading): (r: seq<nat>)
    ensures Ranked(Scores(x), r)
    ensures forall k :: 0 <= k < |r| ==> r[k] < |Table|
    ensures forall i :: 0 <= i < |Table| ==> (i in r <==> CropScore(Table[i], x) > 0.0)
  {
    var scores := Scores(x);
    KeepScored(scores, Sort(scores, |Table|))
  }

  /** The list entry for table row `i`. */
  function Entry(x: Reading, i: nat): Recommendation
    requires i < |Table|
  {
    Recommendation(Table[i].crop, CropScore(Table[i], x))
  }

  /** `recommend_crop`: every crop that scores above zero, with its score,
      best first and equal scores in table order. */
  function RecommendCrop(x: Reading): (r: seq<Recommendation>)
    ensures |r| == |Ranking(x)|
    ensures forall k :: 0 <= k < |r| ==> Ranking(x)[k] < |Table| && r[k] == Entry(x, Ranking(x)[k])
    ensures forall k :: 0 <= k < |r| ==> 0.0 < r[k].score <= 100.0
  {
    var order := Ranking(x);
    assert forall k :: 0 <= k < |order| ==> Entry(x, order[k]).score > 0.0 by {
      forall k | 0 <= k < |order| ensures Entry(x, order[k]).score > 0.0 {
        assert order[k] in order;
      }
    }
    seq(|order|, k requires 0 <= k < |order| => Entry(x, order[k]))
  }

  /** Scores never increase down the list, and equal scores keep the
      table's order. */
  lemma RecommendationsOrdered(x: Reading)
    ensures var r := RecommendCrop(x);
      forall j, k :: 0 <= j < k < |r| ==>
        r[j].score > r[k].score || (r[j].score == r[k].score && Ranking(x)[j] < Ranking(x)[k])
  {
    var r := RecommendCrop(x);
    var order := Ranking(x);
    forall j, k | 0 <= j < k < |r|
      ensures r[j].score > r[k].score || (r[j].score == r[k].score && order[j] < order[k])
    {
      assert Before(Scores(x), order[j], order[k]);
    }
  }

  /** Some entry of `r` names `crop`. */
  predicate Lists(r: seq<Recommendation>, crop: string) {
    exists k :: 0 <= k < |r| && r[k].crop == crop
  }

  /** A crop is recommended exactly when it scores above zero. */
  lemma RecommendedIffScored(x: Reading, i: nat)
    requires i < |Table|
    ensures Lists(RecommendCrop(x), Table[i].crop) <==> CropScore(Table[i], x) > 0.0
  {
    var r := RecommendCrop(x);
    if CropScore(Table[i], x) > 0.0 {
      var order := Ranking(x);
      assert i in order;
      var k :| 0 <= k < |order| && order[k] == i;
      assert r[k].crop == Table[i].crop;
    } else if Lists(r, Table[i].crop) {
      var k :| 0 <= k < |r| && r[k].crop == Table[i].crop;
      RecommendedEntry(x, i, k);
    }
  }

  /** A recommended crop carries its own table entry's score. */
  lemma RecommendedEntry(x: Reading, i: nat, k: nat)
    requires i < |Table| && k < |RecommendCrop(x)|
    requires RecommendCrop(x)[k].crop == Table[i].crop
    ensures Ranking(x)[k] == i
    ensures RecommendCrop(x)[k].score == CropScore(Table[i], x) > 0.0
  {
    CropsNamedOnce();
    var order := Ranking(x);
    assert Table[order[k]].crop == Table[i].crop;
    assert order[k] in order;
  }

  /** No crop appears twice. */
  lemma CropsDistinct(x: Reading)
    ensures var r := RecommendCrop(x);
      forall j, k :: 0 <= j < k < |r| ==> r[j].crop != r[k].crop
  {
    CropsNamedOnce();
    var r := RecommendCrop(x);
    var order := Ranking(x);
    forall j, k | 0 <= j < k < |r| ensures r[j].crop != r[k].crop {
      assert Before(Scores(x), order[j], order[k]);
      assert r[j].crop == Table[order[j]].crop && r[k].crop == Table[order[k]].crop;
    }
  }

  /** Any two stable descending sorts of the same indices agree, so the
      insertion sort here computes what Python's `sorted(..., reverse=True)`
      computes. */
  lemma {:induction false} RankedUnique(scores: seq<real>, xs: seq<nat>, ys: seq<nat>)
    requires Ranked(scores, xs) && Ranked(scores, ys)
    requires |xs| == |ys| && forall v :: v in xs <==> v in ys
    ensures xs == ys
    decreases |xs|
  {
    if |xs| > 0 {
      assert xs[0] in xs;
      assert xs[0] in ys;
      assert ys[0] in ys;
      TailMembers(scores, xs);
      TailMembers(scores, ys);
      assert xs[0] == ys[0];
      RankedUnique(scores, xs[1..], ys[1..]);
      assert xs == [xs[0]] + xs[1..] && ys == [ys[0]] + ys[1..];
    }
  }

  /** The tail of a ranked list holds everything but its head. */
  lemma TailMembers(scores: seq<real>, xs: seq<nat>)
    requires Ranked(scores, xs) && |xs| > 0
    ensures Ranked(scores, xs[1..])
    ensures forall v :: v in xs[1..] <==> v in xs && v != xs[0]
    ensures forall v :: v in xs && v != xs[0] ==> v < |scores| && Before(scores, xs[0], v)
  {
    forall v ensures v in xs[1..] <==> v in xs && v != xs[0] {
      if v in xs[1..] {
        var a :| 0 <= a < |xs[1..]| && xs[1..][a] == v;
        assert Before(scores, xs[0], xs[a + 1]);
      }
      if v in xs && v != xs[0] {
        var a :| 0 <= a < |xs| && xs[a] == v;
        assert xs[1..][a - 1] == v;
      }
    }
    forall j, k | 0 <= j < k < |xs[1..]| ensures Before(scores, xs[1..][j], xs[1..][k]) {
      assert xs[1..][j] == xs[j + 1] && xs[1..][k] == xs[k + 1];
    }
  }

  /** The sample field (N 90, P 42, K 43, 20 degrees, 82% humidity, pH 6.5,
      202 mm) fits rice in every parameter, so rice leads with 100. */
  lemma SampleFieldRanksRiceFirst()
    ensures var r := RecommendCrop(Reading(90.0, 42.0, 43.0, 20.0, 82.0, 6.5, 202.0));
      |r| > 0 && r[0] == Recommendation("rice", 100.0)
  {
    var x := Reading(90.0, 42.0, 43.0, 20.0, 82.0, 6.5, 202.0);
    var r := RecommendCrop(x);
    var order := Ranking(x);
    assert Fits(Table[0], x);
    assert CropScore(Table[0], x) == 100.0;
    var m :| 0 <= m < |order| && order[m] == 0;
    assert m == 0;
  }

  /** What `recommend_crop_from_satellite` returns: the fetch's error passed
      on, or the estimated soil with the crops recommended for it. */
  datatype Advice =
    | FetchFailed(message: string)
    | Advised(soil: SoilEstimate, recommendations: seq<Recommendation>)

  /** The reading scored for a satellite estimate and the given climate. */
  function SoilReading(soil: SoilEstimate, temperature: real, humidity: real, rainfall: real): Reading {
    Reading(soil.n, soil.p, soil.k, temperature, humidity, soil.ph, rainfall)
  }

  /** `recommend_crop_from_satellite`, given what `fetch_spectral_bands`
      returned. `None` where Python raises IndexError on a band list shorter
      than twelve. */
  function RecommendFromSatellite(fetched: SpectralResult, temperature: real, humidity: real,
                                  rainfall: real): (r: Option<Advice>)
    ensures fetched.SpectralError? ==> r == Some(FetchFailed(fetched.message))
    ensures fetched.Spectral? ==> (r.Some? <==> |fetched.bands| >= 12)
    ensures r.Some? && r.value.Advised? ==>
      && fetched.Spectral?
      && Some(r.value.soil) == PredictNutrients(fetched.bands)
      && r.value.recommendations ==
           RecommendCrop(SoilReading(r.value.soil, temperature, humidity, rainfall))
  {
    match fetched
    case SpectralError(message) => Some(FetchFailed(message))
    case Spectral(bands, _, _) =>
      match PredictNutrients(bands)
      case None => None
      case Some(soil) =>
        Some(Advised(soil, RecommendCrop(SoilReading(soil, temperature, humidity, rainfall))))
  }

  /** A satellite recommendation scores the crops against a pH the
      estimator has already clamped into [4, 8.5]; tea, whose ideal pH ends
      at 5.5, and pomegranate, whose starts at 6.5, are judged like any
      other. */
  lemma SatelliteReadingInBounds(bands: seq<real>, temperature: real, humidity: real, rainfall: real)
    requires |bands| >= 12
    ensures var x := SoilReading(PredictNutrients(bands).value, temperature, humidity, rainfall);
      && 4.0 <= x.ph <= 8.5 && x.n >= 0.0 && x.p >= 0.0 && x.k >= 0.0
      && x.temp == temperature && x.humidity == humidity && x.rainfall == rainfall
  {
  }
}
