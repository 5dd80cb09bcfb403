/**
 * The pure helpers of the routing server's main module: its own copy of the
 * coverage box, its own edge cost (with stronger risk coefficients than the
 * stand-alone helper module), the risk-level bands and the travel-time estimate.
 */
module Backend {
  import opened Wrappers
  import RoutingUtils

  const MinLat: real := 51.2868
  const MaxLat: real := 51.6919
  const MinLon: real := -0.5103
  const MaxLon: real := 0.3340

  predicate InGreaterLondon(lat: real, lon: real) {
    MinLat <= lat <= MaxLat && MinLon <= lon <= MaxLon
  }

  /** An HTTPException: status code and `detail`. A detail that is not a string
      (the request-validation error's list of problems) is `None`. */
  datatype HttpError = HttpError(status: nat, detail: Option<string>)

  /** Graph node ids and parallel-edge keys (OSM ids, integers). */
  type Node = int
  type Key = int

  /** The (u, v, k) key of the risk table. */
  datatype EdgeId = EdgeId(u: Node, v: Node, k: Key)

  /** The attribute dictionary of one graph edge; only `length` (metres) is read. */
  datatype EdgeData = EdgeData(length: Option<real>)

  /** Risk of an edge as the cost function reads it: the table's value, 0.0 if absent. */
  function RiskOf(lookup: map<EdgeId, real>, id: EdgeId): (risk: real) {
    if id in lookup then lookup[id] else 0.0
  }

  /** Cost of edge (u, v, k) under a preference: a missing length counts as 1.0,
      a missing risk as 0.0; balanced weighs risk by 1.0, safest by 4.0, and an
      unknown preference costs the bare length. */
  function EdgeCost(id: EdgeId, data: EdgeData, lookup: map<EdgeId, real>, preference: string): (c: real)
    ensures preference !in {"balanced", "safest"} ==> c == data.length.GetOr(1.0)
    ensures RiskOf(lookup, id) == 0.0 ==> c == data.length.GetOr(1.0)
    ensures data.length.GetOr(1.0) >= 0.0 && RiskOf(lookup, id) >= 0.0 ==> c >= data.length.GetOr(1.0)
  {
    var length := data.length.GetOr(1.0);
    var risk := RiskOf(lookup, id);
    if preference == "fastest" then length
    else if preference == "balanced" then length * (1.0 + 1.0 * risk)
    else if preference == "safest" then length * (1.0 + 4.0 * risk)
    else length
  }

  datatype RiskLevel = Low | Medium | High {
    function Name(): string {
      match this
      case Low => "low"
      case Medium => "medium"
      case High => "high"
    }
    function Rank(): nat {
      match this
      case Low => 0
      case Medium => 1
      case High => 2
    }
  }

  /** The risk band: high from 0.6, medium from 0.3, low below. */
  function LevelOf(r: real): (level: RiskLevel) {
    if r >= 0.6 then High
    else if r >= 0.3 then Medium
    else Low
  }

  /** The assumed average speed of a travel mode: 25 km/h driving, 4.8 km/h
      for anything else (walking). */
  function SpeedKmh(mode: string): (kmh: real)
    ensures kmh > 0.0
  {
    if mode == "drive" then 25.0 else 4.8
  }

  /** Estimated minutes for a distance: distance over the mode's speed, in minutes. */
  function DurationMin(distKm: real, mode: string): (minutes: real) {
    (distKm / SpeedKmh(mode)) * 60.0
  }

  // ---- Properties ----

  /** The main module's coverage box is the same as the helper module's. */
  lemma CoverageAgrees(lat: real, lon: real)
    ensures InGreaterLondon(lat, lon) <==> RoutingUtils.InGreaterLondon(lat, lon)
  {
  }

  /** The bands are monotone: a larger risk never gets a lower level. */
  lemma LevelMonotone(r1: real, r2: real)
    requires r1 <= r2
    ensures LevelOf(r1).Rank() <= LevelOf(r2).Rank()
  {
  }

  /** The band boundaries, both directions. */
  lemma LevelBands(r: real)
    ensures LevelOf(r) == High <==> r >= 0.6
    ensures LevelOf(r) == Medium <==> 0.3 <= r < 0.6
    ensures LevelOf(r) == Low <==> r < 0.3
  {
  }

  /** For a non-negative length and risk: fastest <= balanced <= safest, and each
      of the main module's costs is at least the helper module's cost for the same
      length, risk and preference (equal for fastest and unknown preferences). */
  lemma CostOrder(id: EdgeId, data: EdgeData, lookup: map<EdgeId, real>, preference: string)
    requires data.length.GetOr(1.0) >= 0.0 && RiskOf(lookup, id) >= 0.0
    ensures EdgeCost(id, data, lookup, "fastest") <= EdgeCost(id, data, lookup, "balanced")
    ensures EdgeCost(id, data, lookup, "balanced") <= EdgeCost(id, data, lookup, "safest")
    ensures RoutingUtils.EdgeCost(data.length, Some(RiskOf(lookup, id)), preference)
              <= EdgeCost(id, data, lookup, preference)
    ensures preference !in {"balanced", "safest"} ==>
              RoutingUtils.EdgeCost(data.length, Some(RiskOf(lookup, id)), preference)
              == EdgeCost(id, data, lookup, preference)
  {
    var len, r := data.length.GetOr(1.0), RiskOf(lookup, id);
    RoutingUtils.MulMonotone(len, 1.0 * r, 4.0 * r);
    RoutingUtils.MulMonotone(len, 0.5 * r, 1.0 * r);
    RoutingUtils.MulMonotone(len, 2.0 * r, 4.0 * r);
  }

  /** Walking takes 25/4.8 times as long as driving the same distance, and a
      non-negative distance never takes negative time. */
  lemma DurationProperties(distKm: real)
    ensures DurationMin(distKm, "walk") * 4.8 == DurationMin(distKm, "drive") * 25.0
    ensures distKm >= 0.0 ==> 0.0 <= DurationMin(distKm, "drive") <= DurationMin(distKm, "walk")
    ensures DurationMin(distKm, "drive") == distKm * 2.4
  {
  }
}
