/**
 * The stand-alone helpers of the routing server: the Greater London coverage
 * box and a cost formula that takes the edge length and risk directly.
 * `None` stands for a Python `None` argument.
 */
module RoutingUtils {
  import opened Wrappers

  const MinLat: real := 51.2868
  const MaxLat: real := 51.6919
  const MinLon: real := -0.5103
  const MaxLon: real := 0.3340

  /** The coverage test: inclusive on all four sides of the box. */
  predicate InGreaterLondon(lat: real, lon: real) {
    MinLat <= lat <= MaxLat && MinLon <= lon <= MaxLon
  }

  /** Cost of an edge under a preference; a missing length counts as 1.0, a
      missing risk as 0.0, and an unknown preference costs the bare length. */
  function EdgeCost(length: Option<real>, risk: Option<real>, preference: string): (c: real)
    ensures preference !in {"balanced", "safest"} ==> c == length.GetOr(1.0)
    ensures risk.GetOr(0.0) == 0.0 ==> c == length.GetOr(1.0)
    ensures length.GetOr(1.0) >= 0.0 && risk.GetOr(0.0) >= 0.0 ==> c >= length.GetOr(1.0)
  {
    var len := length.GetOr(1.0);
    var r := risk.GetOr(0.0);
    if preference == "fastest" then len
    else if preference == "balanced" then len * (1.0 + 0.5 * r)
    else if preference == "safest" then len * (1.0 + 2.0 * r)
    else len
  }

  /** The unit tests' two sample points: central London is covered, Birmingham is not. */
  lemma CoverageSamples()
    ensures InGreaterLondon(51.5074, -0.1278)
    ensures !InGreaterLondon(52.4862, -1.8904)
  {
  }

  /** The unit tests' sample costs. */
  lemma EdgeCostSamples()
    ensures EdgeCost(Some(100.0), Some(0.9), "fastest") == 100.0
    ensures EdgeCost(Some(100.0), Some(0.2), "balanced") == 110.0
    ensures EdgeCost(Some(100.0), Some(0.2), "safest") == 140.0
    ensures EdgeCost(Some(100.0), Some(999.0), "whatever") == 100.0
    ensures EdgeCost(None, None, "safest") == 1.0
  {
  }

  /** For a non-negative length and risk, safest penalises at least as much as
      balanced, which penalises at least as much as fastest. */
  lemma PreferenceOrder(length: Option<real>, risk: Option<real>)
    requires length.GetOr(1.0) >= 0.0 && risk.GetOr(0.0) >= 0.0
    ensures EdgeCost(length, risk, "fastest") <= EdgeCost(length, risk, "balanced")
    ensures EdgeCost(length, risk, "balanced") <= EdgeCost(length, risk, "safest")
  {
    var len, r := length.GetOr(1.0), risk.GetOr(0.0);
    assert len * (0.5 * r) <= len * (2.0 * r) by {
      assert 0.5 * r <= 2.0 * r;
      MulMonotone(len, 0.5 * r, 2.0 * r);
    }
  }

  lemma MulMonotone(k: real, a: real, b: real)
    requires k >= 0.0 && a <= b
    ensures k * a <= k * b
  {
    assert k * b - k * a == k * (b - a);
  }
}
