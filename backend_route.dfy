/**
 * The server's `/route` endpoint after the path has been found: for each
 * consecutive pair of path nodes pick the parallel edge of least cost, sum up
 * the risk of the picked edges, count the high-risk ones and place a marker on
 * every third of those, add up the distance and estimate the travel time.
 * The graph, the shortest-path search and the map projection are foreign: the
 * path arrives as a parameter and node positions come from given functions.
 */
module BackendRoute {
  import opened Wrappers
  import opened Geo
  import opened Backend

  /** One of the parallel edges from u to v: its key and its attributes. */
  datatype ParallelEdge = ParallelEdge(k: Key, data: EdgeData)

  /** The graph as the loops read it: the parallel edges of each node pair, in
      the graph's key order; a pair that is not connected is simply absent. */
  type Graph = map<(Node, Node), seq<ParallelEdge>>

  function EdgesBetween(g: Graph, u: Node, v: Node): (edges: seq<ParallelEdge>) {
    if (u, v) in g then g[(u, v)] else []
  }

  /** The summary record of one path step. */
  datatype SegmentRisk = SegmentRisk(u: Node, v: Node, k: Key, risk: real, lengthM: real)

  /** A map marker on a high-risk step. */
  datatype RiskMarker = RiskMarker(lat: real, lon: real, risk: real, level: RiskLevel)

  const RiskMarkerThreshold: real := 0.6
  const MarkerEveryN: nat := 3

  function CostAt(u: Node, v: Node, e: ParallelEdge, lookup: map<EdgeId, real>, pref: string): (cost: real) {
    EdgeCost(EdgeId(u, v, e.k), e.data, lookup, pref)
  }

  /** The edge the summary loop picks: the first one of least cost (the loop
      replaces its choice only on a strictly smaller cost). */
  function FirstMinIndex(u: Node, v: Node, edges: seq<ParallelEdge>, lookup: map<EdgeId, real>, pref: string): (i: nat)
    requires edges != []
    ensures i < |edges|
  {
    var n := |edges| - 1;
    if n == 0 then 0
    else
      var p := FirstMinIndex(u, v, edges[..n], lookup, pref);
      if CostAt(u, v, edges[n], lookup, pref) < CostAt(u, v, edges[p], lookup, pref) then n else p
  }

  /** The picked edge has the least cost, and every earlier edge costs strictly
      more: it is the first edge of least cost. */
  lemma {:induction false} FirstMinIndexIsFirstLeast(u: Node, v: Node, edges: seq<ParallelEdge>, lookup: map<EdgeId, real>, pref: string)
    requires edges != []
    ensures var i := FirstMinIndex(u, v, edges, lookup, pref);
            && (forall j :: 0 <= j < |edges| ==> CostAt(u, v, edges[i], lookup, pref) <= CostAt(u, v, edges[j], lookup, pref))
            && (forall j :: 0 <= j < i ==> CostAt(u, v, edges[i], lookup, pref) < CostAt(u, v, edges[j], lookup, pref))
  {
    var n := |edges| - 1;
    if n > 0 {
      FirstMinIndexIsFirstLeast(u, v, edges[..n], lookup, pref);
      assert forall j :: 0 <= j < n ==> edges[..n][j] == edges[j];
    }
  }

  /** The inner loop over the parallel edges of one step. `bestK` is `None`
      only when there are no edges; risk and length then stay 0.0. */
  method ChooseEdge(u: Node, v: Node, edges: seq<ParallelEdge>, lookup: map<EdgeId, real>, pref: string)
    returns (bestK: Option<Key>, bestRisk: real, bestLen: real)
    ensures edges == [] ==> bestK == None && bestRisk == 0.0 && bestLen == 0.0
    ensures edges != [] ==>
              && bestK.Some?
              && SegmentRisk(u, v, bestK.value, bestRisk, bestLen) == PickedRecord(u, v, edges, lookup, pref)
  {
    bestK := None;
    var bestCost: Option<real> := None;  // None is +infinity
    bestRisk, bestLen := 0.0, 0.0;
    ghost var bestIdx := 0;
    for i := 0 to |edges|
      invariant i == 0 <==> bestCost == None
      invariant i == 0 ==> bestK == None && bestRisk == 0.0 && bestLen == 0.0
      invariant i > 0 ==> bestIdx == FirstMinIndex(u, v, edges[..i], lookup, pref)
      invariant i > 0 ==> var e := edges[bestIdx];
                  bestCost == Some(CostAt(u, v, e, lookup, pref)) && bestK == Some(e.k)
                  && bestRisk == RiskOf(lookup, EdgeId(u, v, e.k)) && bestLen == e.data.length.GetOr(0.0)
    {
      var e := edges[i];
      var length := e.data.length.GetOr(0.0);
      var r := RiskOf(lookup, EdgeId(u, v, e.k));
      var c := EdgeCost(EdgeId(u, v, e.k), e.data, lookup, pref);
      assert edges[..i + 1][..i] == edges[..i];
      if i > 0 {
        assert edges[..i + 1][bestIdx] == edges[bestIdx];
      }
      if bestCost.None? || c < bestCost.value {
        bestCost := Some(c);
        bestK := Some(e.k);
        bestRisk := r;
        bestLen := length;
        bestIdx := i;
      }
    }
    assert edges[..|edges|] == edges;
  }

  /** The number of consecutive node pairs of a path. */
  function PairCount(path: seq<Node>): (pairs: nat) {
    if |path| < 2 then 0 else |path| - 1
  }

  /** The record of a step from its picked edge: key, table risk and length
      (a missing length counts as 0.0 here). */
  function PickedRecord(u: Node, v: Node, edges: seq<ParallelEdge>, lookup: map<EdgeId, real>, pref: string): (seg: SegmentRisk)
    requires edges != []
  {
    var e := edges[FirstMinIndex(u, v, edges, lookup, pref)];
    SegmentRisk(u, v, e.k, RiskOf(lookup, EdgeId(u, v, e.k)), e.data.length.GetOr(0.0))
  }

  /** The record for step (u, v), or nothing when u and v are not connected. */
  function SegmentFor(u: Node, v: Node, g: Graph, lookup: map<EdgeId, real>, pref: string): (segs: seq<SegmentRisk>) {
    var edges := EdgesBetween(g, u, v);
    if edges == [] then [] else [PickedRecord(u, v, edges, lookup, pref)]
  }

  /** The records of the first n steps of the path. */
  function Segments(path: seq<Node>, n: nat, g: Graph, lookup: map<EdgeId, real>, pref: string): (segs: seq<SegmentRisk>)
    requires n <= PairCount(path)
  {
    if n == 0 then []
    else Segments(path, n - 1, g, lookup, pref) + SegmentFor(path[n - 1], path[n], g, lookup, pref)
  }

  function RiskSum(segs: seq<SegmentRisk>): (total: real) {
    if segs == [] then 0.0 else RiskSum(segs[..|segs| - 1]) + segs[|segs| - 1].risk
  }

  /** How many records are at or above the marker threshold. */
  function HighCount(segs: seq<SegmentRisk>): (h: nat)
    ensures h <= |segs|
  {
    if segs == [] then 0
    else HighCount(segs[..|segs| - 1]) + (if segs[|segs| - 1].risk >= RiskMarkerThreshold then 1 else 0)
  }

  /** The markers of a list of records: a high-risk record gets one when it is
      the 1st, 4th, 7th, ... high-risk record; `mid` gives the map position of
      the midpoint between two nodes. Every marker is a high-level one. */
  function Markers(segs: seq<SegmentRisk>, mid: (Node, Node) -> LatLon): (ms: seq<RiskMarker>)
    ensures forall m :: m in ms ==> m.risk >= RiskMarkerThreshold && m.level == High
  {
    if segs == [] then []
    else
      var s := segs[|segs| - 1];
      var p := mid(s.u, s.v);
      Markers(segs[..|segs| - 1], mid)
        + (if s.risk >= RiskMarkerThreshold && HighCount(segs) % MarkerEveryN == 1
           then [RiskMarker(p.lat, p.lon, s.risk, LevelOf(s.risk))] else [])
  }

  /** One marker per started group of three high-risk records. */
  lemma {:induction false} MarkerCount(segs: seq<SegmentRisk>, mid: (Node, Node) -> LatLon)
    ensures |Markers(segs, mid)| == (HighCount(segs) + 2) / 3
  {
    if segs != [] {
      var init := segs[..|segs| - 1];
      MarkerCount(init, mid);
      if segs[|segs| - 1].risk >= RiskMarkerThreshold {
        GroupStep(HighCount(init));
      }
    }
  }

  /** Counting one more high-risk record starts a new group of three exactly
      when the new count is 1 modulo 3. */
  lemma GroupStep(h: nat)
    ensures (h + 3) / 3 == (h + 2) / 3 + (if (h + 1) % 3 == 1 then 1 else 0)
  {
  }

  /** What appending one record does to the running totals. */
  lemma AppendRecord(segs: seq<SegmentRisk>, seg: SegmentRisk, mid: (Node, Node) -> LatLon)
    ensures var t := segs + [seg];
            && RiskSum(t) == RiskSum(segs) + seg.risk
            && HighCount(t) == HighCount(segs) + (if seg.risk >= RiskMarkerThreshold then 1 else 0)
            && Markers(t, mid) == Markers(segs, mid)
                 + (if seg.risk >= RiskMarkerThreshold && HighCount(t) % MarkerEveryN == 1
                    then [RiskMarker(mid(seg.u, seg.v).lat, mid(seg.u, seg.v).lon, seg.risk, LevelOf(seg.risk))]
                    else [])
  {
    var t := segs + [seg];
    assert t[..|t| - 1] == segs;
  }

  lemma SegmentsStep(path: seq<Node>, idx: nat, g: Graph, lookup: map<EdgeId, real>, pref: string)
    requires idx < PairCount(path)
    ensures var edges := EdgesBetween(g, path[idx], path[idx + 1]);
            Segments(path, idx + 1, g, lookup, pref) == Segments(path, idx, g, lookup, pref)
              + (if |edges| == 0 then [] else [PickedRecord(path[idx], path[idx + 1], edges, lookup, pref)])
  {
  }

  /** The summary loop's bookkeeping for one record: store it, add its risk,
      count it, and count it as high-risk (with a marker on every third) when
      its risk reaches the threshold. */
  method AddRecord(segs: seq<SegmentRisk>, markers: seq<RiskMarker>, sum: real, count: nat, high: nat,
                   seg: SegmentRisk, mid: (Node, Node) -> LatLon)
    returns (segs': seq<SegmentRisk>, markers': seq<RiskMarker>, sum': real, count': nat, high': nat)
    requires markers == Markers(segs, mid) && sum == RiskSum(segs) && count == |segs| && high == HighCount(segs)
    ensures segs' == segs + [seg]
    ensures markers' == Markers(segs', mid) && sum' == RiskSum(segs') && count' == |segs'| && high' == HighCount(segs')
  {
    AppendRecord(segs, seg, mid);
    segs', markers', sum', count', high' := segs + [seg], markers, sum + seg.risk, count + 1, high;
    if seg.risk >= RiskMarkerThreshold {
      high' := high' + 1;
      if high' % MarkerEveryN == 1 {
        var p := mid(seg.u, seg.v);
        markers' := markers' + [RiskMarker(p.lat, p.lon, seg.risk, LevelOf(seg.risk))];
      }
    }
  }

  /** One round of the summary loop: the step from path[idx] to path[idx + 1]
      adds the record of its picked edge, if u and v are connected. */
  method SummaryStep(path: seq<Node>, idx: nat, g: Graph, lookup: map<EdgeId, real>, pref: string,
                     mid: (Node, Node) -> LatLon,
                     segs: seq<SegmentRisk>, markers: seq<RiskMarker>, sum: real, count: nat, high: nat)
    returns (segs': seq<SegmentRisk>, markers': seq<RiskMarker>, sum': real, count': nat, high': nat)
    requires idx < PairCount(path)
    requires segs == Segments(path, idx, g, lookup, pref)
    requires markers == Markers(segs, mid) && sum == RiskSum(segs) && count == |segs| && high == HighCount(segs)
    ensures segs' == Segments(path, idx + 1, g, lookup, pref)
    ensures markers' == Markers(segs', mid) && sum' == RiskSum(segs') && count' == |segs'| && high' == HighCount(segs')
  {
    var u, v := path[idx], path[idx + 1];
    var edges := EdgesBetween(g, u, v);
    SegmentsStep(path, idx, g, lookup, pref);
    if |edges| == 0 {
      return segs, markers, sum, count, high;
    }
    var bestK, bestRisk, bestLen := ChooseEdge(u, v, edges, lookup, pref);
    var seg := SegmentRisk(u, v, bestK.GetOr(0), bestRisk, bestLen);
    segs', markers', sum', count', high' := AddRecord(segs, markers, sum, count, high, seg, mid);
  }

  /** The summary loop. */
  method RiskSummary(path: seq<Node>, g: Graph, lookup: map<EdgeId, real>, pref: string, mid: (Node, Node) -> LatLon)
    returns (segmentRisks: seq<SegmentRisk>, riskMarkers: seq<RiskMarker>, riskSum: real, riskCount: nat, highCount: nat)
    ensures segmentRisks == Segments(path, PairCount(path), g, lookup, pref)
    ensures riskMarkers == Markers(segmentRisks, mid)
    ensures riskSum == RiskSum(segmentRisks) && riskCount == |segmentRisks|
    ensures highCount == HighCount(segmentRisks) && |riskMarkers| == (highCount + 2) / 3
  {
    segmentRisks, riskMarkers := [], [];
    riskSum, riskCount, highCount := 0.0, 0, 0;
    for idx := 0 to PairCount(path)
      invariant segmentRisks == Segments(path, idx, g, lookup, pref)
      invariant riskMarkers == Markers(segmentRisks, mid)
      invariant riskSum == RiskSum(segmentRisks) && riskCount == |segmentRisks|
      invariant highCount == HighCount(segmentRisks)
    {
      segmentRisks, riskMarkers, riskSum, riskCount, highCount :=
        SummaryStep(path, idx, g, lookup, pref, mid, segmentRisks, riskMarkers, riskSum, riskCount, highCount);
    }
    MarkerCount(segmentRisks, mid);
  }

  /** The average risk, 0.0 when no step was counted. */
  function AvgRisk(riskSum: real, riskCount: nat): (avg: real) {
    if riskCount != 0 then riskSum / riskCount as real else 0.0
  }

  /** The risk table holds probabilities. */
  predicate ProbabilityTable(lookup: map<EdgeId, real>) {
    forall id :: id in lookup ==> 0.0 <= lookup[id] <= 1.0
  }

  lemma {:induction false} SegmentRisksBounded(path: seq<Node>, n: nat, g: Graph, lookup: map<EdgeId, real>, pref: string)
    requires n <= PairCount(path) && ProbabilityTable(lookup)
    ensures forall s :: s in Segments(path, n, g, lookup, pref) ==> 0.0 <= s.risk <= 1.0
  {
    if n > 0 {
      SegmentRisksBounded(path, n - 1, g, lookup, pref);
    }
  }

  lemma {:induction false} RiskSumBounded(segs: seq<SegmentRisk>)
    requires forall s :: s in segs ==> 0.0 <= s.risk <= 1.0
    ensures 0.0 <= RiskSum(segs) <= |segs| as real
  {
    if segs != [] {
      RiskSumBounded(segs[..|segs| - 1]);
      assert segs[|segs| - 1] in segs;
    }
  }

  lemma DivAtMostOne(s: real, c: real)
    requires 0.0 <= s <= c && c > 0.0
    ensures 0.0 <= s / c <= 1.0
  {
    assert s / c * c == s;
  }

  /** Risks in [0, 1] average to a value in [0, 1] (0 for no records). */
  lemma AvgRiskBounded(segs: seq<SegmentRisk>)
    requires forall s :: s in segs ==> 0.0 <= s.risk <= 1.0
    ensures 0.0 <= AvgRisk(RiskSum(segs), |segs|) <= 1.0
  {
    RiskSumBounded(segs);
    if |segs| != 0 {
      DivAtMostOne(RiskSum(segs), |segs| as real);
    }
  }

  /** With a table of probabilities the average risk of a path is a probability too. */
  lemma AvgRiskIsProbability(path: seq<Node>, g: Graph, lookup: map<EdgeId, real>, pref: string)
    requires ProbabilityTable(lookup)
    ensures var segs := Segments(path, PairCount(path), g, lookup, pref);
            0.0 <= AvgRisk(RiskSum(segs), |segs|) <= 1.0
  {
    SegmentRisksBounded(path, PairCount(path), g, lookup, pref);
    AvgRiskBounded(Segments(path, PairCount(path), g, lookup, pref));
  }

  /** The shortest length among some parallel edges (a missing length counts as 0.0). */
  function MinLength(edges: seq<ParallelEdge>): (m: real)
    requires edges != []
    ensures forall e :: e in edges ==> m <= e.data.length.GetOr(0.0)
  {
    var n := |edges| - 1;
    var here := edges[n].data.length.GetOr(0.0);
    if n == 0 then here
    else
      var rest := MinLength(edges[..n]);
      assert forall e :: e in edges ==> e in edges[..n] || e == edges[n];
      if rest <= here then rest else here
  }

  /** The minimum is the length of one of the edges. */
  lemma {:induction false} MinLengthAttained(edges: seq<ParallelEdge>)
    requires edges != []
    ensures exists i :: 0 <= i < |edges| && MinLength(edges) == edges[i].data.length.GetOr(0.0)
  {
    var n := |edges| - 1;
    if n == 0 || MinLength(edges) == edges[n].data.length.GetOr(0.0) {
      assert MinLength(edges) == edges[n].data.length.GetOr(0.0);
    } else {
      MinLengthAttained(edges[..n]);
      var i :| 0 <= i < n && MinLength(edges[..n]) == edges[..n][i].data.length.GetOr(0.0);
      assert edges[..n][i] == edges[i];
      assert MinLength(edges) == edges[i].data.length.GetOr(0.0);
    }
  }

  /** The metres one step counts: its shortest parallel edge, 0.0 when u and v
      are not connected. */
  function StepLength(g: Graph, u: Node, v: Node): (length: real) {
    var edges := EdgesBetween(g, u, v);
    if edges != [] then MinLength(edges) else 0.0
  }

  /** The metres covered by the first n steps. */
  function Distance(path: seq<Node>, n: nat, g: Graph): (meters: real)
    requires n <= PairCount(path)
  {
    if n == 0 then 0.0 else Distance(path, n - 1, g) + StepLength(g, path[n - 1], path[n])
  }

  /** The distance loop. */
  method PathDistance(path: seq<Node>, g: Graph) returns (distM: real)
    ensures distM == Distance(path, PairCount(path), g)
  {
    distM := 0.0;
    for i := 0 to PairCount(path)
      invariant distM == Distance(path, i, g)
    {
      var edges := EdgesBetween(g, path[i], path[i + 1]);
      if edges != [] {
        distM := distM + MinLength(edges);
      }
    }
  }

  /** The length of the edge the summary picks for step (u, v), 0.0 when u
      and v are not connected. */
  function PickedLength(u: Node, v: Node, g: Graph, lookup: map<EdgeId, real>, pref: string): (length: real) {
    var edges := EdgesBetween(g, u, v);
    if edges == [] then 0.0 else PickedRecord(u, v, edges, lookup, pref).lengthM
  }

  lemma StepAtMostPicked(u: Node, v: Node, g: Graph, lookup: map<EdgeId, real>, pref: string)
    ensures StepLength(g, u, v) <= PickedLength(u, v, g, lookup, pref)
  {
    var edges := EdgesBetween(g, u, v);
    if edges != [] {
      assert edges[FirstMinIndex(u, v, edges, lookup, pref)] in edges;
    }
  }

  /** The metres of the edges the summary picks over the first n steps. */
  function PickedDistance(path: seq<Node>, n: nat, g: Graph, lookup: map<EdgeId, real>, pref: string): (meters: real)
    requires n <= PairCount(path)
  {
    if n == 0 then 0.0
    else PickedDistance(path, n - 1, g, lookup, pref) + PickedLength(path[n - 1], path[n], g, lookup, pref)
  }

  /** The reported distance never exceeds the length of the edges the summary
      picked: it counts the shortest parallel edge of each step, which the
      picked edge need not be. */
  lemma {:induction false} DistanceAtMostPicked(path: seq<Node>, n: nat, g: Graph, lookup: map<EdgeId, real>, pref: string)
    requires n <= PairCount(path)
    ensures Distance(path, n, g) <= PickedDistance(path, n, g, lookup, pref)
  {
    if n > 0 {
      DistanceAtMostPicked(path, n - 1, g, lookup, pref);
      StepAtMostPicked(path[n - 1], path[n], g, lookup, pref);
    }
  }

  /** A route request. An absent preference is "fastest". */
  datatype RouteRequest = RouteRequest(origin: LatLon, destination: LatLon, mode: string, preference: Option<string>)

  /** The endpoint's JSON answer (before the rounding of the numbers). */
  datatype RouteResponse = RouteResponse(
    mode: string, preference: string, distanceKm: real, durationMin: real,
    avgRisk: real, riskLevel: string, highRiskSegments: nat,
    geometry: seq<LatLon>, riskMarkers: seq<RiskMarker>)

  const OutOfCoverageDetail: string := "OUT_OF_COVERAGE: Greater London only."
  const NoRouteDetail: string := "No route found between the two points."

  /** The request body matches the schema: mode is drive or walk, preference
      is one of the three. */
  predicate ValidRouteRequest(req: RouteRequest) {
    req.mode in {"drive", "walk"} && req.preference.GetOr("fastest") in {"fastest", "balanced", "safest"}
  }

  /** The response fields as functions of the path: the summary of the picked
      edges, the distance, the time estimate and one geometry point per node. */
  predicate Summarizes(r: RouteResponse, p: seq<Node>, g: Graph, lookup: map<EdgeId, real>,
                       position: Node -> LatLon, mid: (Node, Node) -> LatLon)
  {
    var segs := Segments(p, PairCount(p), g, lookup, r.preference);
    && r.highRiskSegments == HighCount(segs)
    && r.riskMarkers == Markers(segs, mid)
    && r.avgRisk == AvgRisk(RiskSum(segs), |segs|)
    && r.riskLevel == LevelOf(r.avgRisk).Name()
    && r.distanceKm == Distance(p, PairCount(p), g) / 1000.0
    && r.durationMin == DurationMin(r.distanceKm, r.mode)
    && |r.geometry| == |p|
    && (forall i :: 0 <= i < |p| ==> r.geometry[i] == position(p[i]))
  }

  /** The polyline loop: one map position per path node, in path order. */
  method Geometry(pathNodes: seq<Node>, position: Node -> LatLon) returns (geometry: seq<LatLon>)
    ensures |geometry| == |pathNodes|
    ensures forall i :: 0 <= i < |pathNodes| ==> geometry[i] == position(pathNodes[i])
  {
    geometry := [];
    for i := 0 to |pathNodes|
      invariant |geometry| == i
      invariant forall j :: 0 <= j < i ==> geometry[j] == position(pathNodes[j])
    {
      geometry := geometry + [position(pathNodes[i])];
    }
  }

  /** The part of the endpoint after the path is known. */
  method BuildResponse(mode: string, pref: string, pathNodes: seq<Node>, g: Graph, lookup: map<EdgeId, real>,
                       position: Node -> LatLon, mid: (Node, Node) -> LatLon)
    returns (r: RouteResponse)
    ensures r.mode == mode && r.preference == pref
    ensures Summarizes(r, pathNodes, g, lookup, position, mid)
    ensures |r.riskMarkers| == (r.highRiskSegments + 2) / 3
  {
    var segmentRisks, riskMarkers, riskSum, riskCount, highCount := RiskSummary(pathNodes, g, lookup, pref, mid);
    var avgRisk := AvgRisk(riskSum, riskCount);
    var geometry := Geometry(pathNodes, position);
    var distM := PathDistance(pathNodes, g);
    var distKm := distM / 1000.0;
    var durationMin := DurationMin(distKm, mode);

    r := RouteResponse(mode, pref, distKm, durationMin, avgRisk, LevelOf(avgRisk).Name(),
                       highCount, geometry, riskMarkers);
  }

  /** The endpoint. `auth` is what the bearer-token dependency raised, if it
      raised; `path` is the node sequence the shortest-path search found for
      this request's graph and endpoints (`None`: no path); `position` and
      `mid` map a node, and the midpoint of two nodes, to latitude/longitude. */
  method Route(req: RouteRequest, auth: Option<HttpError>, path: Option<seq<Node>>,
               g: Graph, lookup: map<EdgeId, real>,
               position: Node -> LatLon, mid: (Node, Node) -> LatLon)
    returns (resp: Result<RouteResponse, HttpError>)
    ensures auth.Some? ==> resp == Failure(auth.value)
    ensures auth.None? && !ValidRouteRequest(req) ==> resp == Failure(HttpError(422, None))
    ensures auth.None? && ValidRouteRequest(req) ==>
              (resp == Failure(HttpError(400, Some(OutOfCoverageDetail)))
               <==> !InGreaterLondon(req.origin.lat, req.origin.lon)
                    || !InGreaterLondon(req.destination.lat, req.destination.lon))
    ensures auth.None? ==> (resp == Failure(HttpError(404, Some(NoRouteDetail))) <==>
              && ValidRouteRequest(req) && path.None?
              && InGreaterLondon(req.origin.lat, req.origin.lon)
              && InGreaterLondon(req.destination.lat, req.destination.lon))
    ensures resp.Success? ==>
              && auth.None? && ValidRouteRequest(req) && path.Some?
              && InGreaterLondon(req.origin.lat, req.origin.lon)
              && InGreaterLondon(req.destination.lat, req.destination.lon)
    ensures (&& auth.None? && ValidRouteRequest(req) && path.Some?
             && InGreaterLondon(req.origin.lat, req.origin.lon)
             && InGreaterLondon(req.destination.lat, req.destination.lon)) ==> resp.Success?
    ensures resp.Success? ==>
              && resp.value.mode == req.mode && resp.value.preference == req.preference.GetOr("fastest")
              && Summarizes(resp.value, path.value, g, lookup, position, mid)
  {
    if auth.Some? {
      return Failure(auth.value);
    }
    if !ValidRouteRequest(req) {
      return Failure(HttpError(422, None));
    }
    var pref := req.preference.GetOr("fastest");
    if !InGreaterLondon(req.origin.lat, req.origin.lon) || !InGreaterLondon(req.destination.lat, req.destination.lon) {
      return Failure(HttpError(400, Some(OutOfCoverageDetail)));
    }
    if path.None? {
      return Failure(HttpError(404, Some(NoRouteDetail)));
    }
    var r := BuildResponse(req.mode, pref, path.value, g, lookup, position, mid);
    resp := Success(r);
  }
}
