/** The AgroLens stand-in: soil nutrients estimated from twelve Sentinel-2
    band reflectances, and the spectral fetch's simulated branch used when no
    Sentinel Hub credentials are configured. */
module Agrolens {
  import opened Wrappers

  /** The twelve bands, in the order the fetch returns them. */
  const BandNames: seq<string> :=
    ["B01", "B02", "B03", "B04", "B05", "B06", "B07", "B08", "B8A", "B09", "B11", "B12"]

  /** The healthy-vegetation signature the simulation perturbs. */
  const BaseBands: seq<real> :=
    [0.12, 0.15, 0.14, 0.11, 0.25, 0.45, 0.55, 0.60, 0.62, 0.10, 0.22, 0.15]

  /** The soil reading `predict_nutrients` returns, before its values are
      rounded to two decimals. */
  datatype SoilEstimate = SoilEstimate(n: real, p: real, k: real, ph: real, isEstimated: bool)

  function Max(a: real, b: real): real { if a >= b then a else b }
  function Min(a: real, b: real): real { if a <= b then a else b }

  /** NDVI = (NIR - Red) / (NIR + Red), and 0 when the sum is not positive. */
  function Ndvi(red: real, nir: real): (r: real)
    ensures red >= 0.0 && nir >= 0.0 ==> -1.0 <= r <= 1.0
    ensures red == nir ==> r == 0.0
    ensures red + nir > 0.0 ==> r * (nir + red) == nir - red
  {
    if nir + red > 0.0 then
      RatioBounds(nir - red, nir + red);
      (nir - red) / (nir + red)
    else 0.0
  }

  lemma RatioBounds(a: real, d: real)
    requires d > 0.0
    ensures a / d * d == a
    ensures a == 0.0 ==> a / d == 0.0
    ensures -d <= a <= d ==> -1.0 <= a / d <= 1.0
  {
    var q := a / d;
    assert q * d == a;
    if -d <= a <= d {
      assert (q - 1.0) * d <= 0.0;
      assert (q + 1.0) * d >= 0.0;
    }
  }

  /** The pH estimate before clamping. */
  function RawPh(bands: seq<real>): real
    requires |bands| >= 12
  {
    6.5 + (bands[1] - bands[3]) * 5.0
  }

  /** `max(4.0, min(8.5, ph))`. */
  function ClampPh(ph: real): (r: real)
    ensures 4.0 <= r <= 8.5
    ensures 4.0 <= ph <= 8.5 ==> r == ph
    ensures ph < 4.0 ==> r == 4.0
    ensures ph > 8.5 ==> r == 8.5
  {
    Max(4.0, Min(8.5, ph))
  }

  /** `predict_nutrients`: `None` where Python raises IndexError, which is
      whenever fewer than twelve bands are given (index 11 is read). */
  function PredictNutrients(bands: seq<real>): (r: Option<SoilEstimate>)
    ensures r.Some? <==> |bands| >= 12
    ensures r.Some? ==> r.value.n >= 0.0 && r.value.p >= 0.0 && r.value.k >= 0.0
    ensures r.Some? ==> 4.0 <= r.value.ph <= 8.5
    ensures r.Some? ==> r.value.isEstimated
  {
    if |bands| < 12 then None
    else
      var ndvi := Ndvi(bands[3], bands[7]);
      Some(SoilEstimate(
        n := Max(0.0, ndvi * 150.0 + bands[10] * 50.0),
        p := Max(0.0, bands[11] * 20.0 + bands[5] * 10.0),
        k := Max(0.0, bands[7] * 40.0 - bands[3] * 10.0),
        ph := ClampPh(RawPh(bands)),
        isEstimated := true))
  }

  /** A flat spectrum has NDVI 0 and neutral pH 6.5. */
  lemma FlatSpectrum(bands: seq<real>)
    requires |bands| >= 12
    requires forall i :: 0 <= i < |bands| ==> bands[i] == bands[0]
    ensures Ndvi(bands[3], bands[7]) == 0.0
    ensures PredictNutrients(bands).value.ph == 6.5
  {
    assert bands[1] == bands[0] && bands[3] == bands[0] && bands[7] == bands[0];
  }

  /** Only bands B02, B04, B06, B08, B11 and B12 (indices 1, 3, 5, 7, 10,
      11) affect the estimate. */
  lemma ReadsSixBands(a: seq<real>, b: seq<real>)
    requires |a| >= 12 && |b| >= 12
    requires a[1] == b[1] && a[3] == b[3] && a[5] == b[5]
    requires a[7] == b[7] && a[10] == b[10] && a[11] == b[11]
    ensures PredictNutrients(a) == PredictNutrients(b)
  {
  }

  /** `int(abs(x) * 10000)`: truncation of a non-negative value is its floor. */
  function SeedPart(x: real): (r: int)
    ensures r >= 0
    ensures r as real <= (if x >= 0.0 then x else -x) * 10000.0 < r as real + 1.0
  {
    ((if x >= 0.0 then x else -x) * 10000.0).Floor
  }

  /** The simulation's RNG seed: `None` where Python raises IndexError on
      fewer than two coordinates. */
  function MockSeed(coords: seq<real>): (r: Option<int>)
    ensures r.Some? <==> |coords| >= 2
    ensures r.Some? ==> r.value >= 0
  {
    if |coords| < 2 then None else Some(SeedPart(coords[0]) + SeedPart(coords[1]))
  }

  /** What `fetch_spectral_bands` returns: an error with its message, or
      twelve band values with their names; `isMock` marks the simulation. */
  datatype SpectralResult =
    | SpectralError(message: string)
    | Spectral(bands: seq<real>, bandNames: seq<string>, isMock: bool)

  /** `np.random.seed` accepts seeds below 2^32 and raises ValueError for
      larger ones. */
  const SeedBound: int := 0x1_0000_0000

  /** `fetch_spectral_bands`. Without credentials it simulates: the seeded
      generator's `i`-th uniform draw for seed `s` is `draw(s, i)`, and band
      `i` is the base signature times that draw. With credentials the
      Sentinel Hub result `live` is returned as it is. `None` where the
      simulation raises: IndexError on fewer than two coordinates, and
      ValueError on a seed out of the generator's range. */
  function FetchSpectralBands(hasCredentials: bool, coords: seq<real>,
                              draw: (int, nat) -> real, live: SpectralResult): (r: Option<SpectralResult>)
    ensures hasCredentials ==> r == Some(live)
    ensures !hasCredentials ==> (r.Some? <==> |coords| >= 2 && MockSeed(coords).value < SeedBound)
    ensures !hasCredentials && r.Some? ==>
      && r.value.Spectral? && r.value.isMock
      && |r.value.bands| == 12 && r.value.bandNames == BandNames
      && forall i :: 0 <= i < 12 ==> r.value.bands[i] == BaseBands[i] * draw(MockSeed(coords).value, i)
  {
    if hasCredentials then Some(live)
    else
      match MockSeed(coords)
      case None => None
      case Some(seed) =>
        if seed >= SeedBound then None
        else Some(Spectral(seq(12, i requires 0 <= i < 12 => BaseBands[i] * draw(seed, i)), BandNames, true))
  }

  /** The simulation is a function of the first two coordinates only:
      scanning the same spot twice gives the same bands, whatever the other
      two corners of the box are. */
  lemma MockDependsOnCornerOnly(c1: seq<real>, c2: seq<real>, draw: (int, nat) -> real,
                                live: SpectralResult)
    requires |c1| >= 2 && |c2| >= 2
    requires SeedPart(c1[0]) + SeedPart(c1[1]) == SeedPart(c2[0]) + SeedPart(c2[1])
    ensures FetchSpectralBands(false, c1, draw, live) == FetchSpectralBands(false, c2, draw, live)
  {
  }

  /** With draws in [0.8, 1.2) every simulated band lies within 20% of its
      base value. */
  lemma MockWithinTwentyPercent(coords: seq<real>, draw: (int, nat) -> real, live: SpectralResult)
    requires |coords| >= 2 && SeedPart(coords[0]) + SeedPart(coords[1]) < SeedBound
    requires forall s, i :: 0.8 <= draw(s, i) < 1.2
    ensures var r := FetchSpectralBands(false, coords, draw, live).value;
      forall i :: 0 <= i < 12 ==> 0.8 * BaseBands[i] <= r.bands[i] < 1.2 * BaseBands[i]
  {
    var r := FetchSpectralBands(false, coords, draw, live).value;
    var seed := MockSeed(coords).value;
    forall i | 0 <= i < 12 ensures 0.8 * BaseBands[i] <= r.bands[i] < 1.2 * BaseBands[i] {
      assert BaseBands[i] > 0.0;
      assert r.bands[i] == BaseBands[i] * draw(seed, i);
    }
  }
}
