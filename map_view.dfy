/**
 * The pure derivations of the map page: the explanation text of a preference,
 * the enable conditions of the Search and Find Route buttons, the route
 * polyline and what is drawn on the map for a given session state.
 */
module MapView {
  import opened Wrappers
  import opened Text
  import opened Geo
  import BackendGeocode

  /** A risk marker of the route payload: `{lat, lon, risk, level}`. */
  datatype MarkerData = MarkerData(lat: real, lon: real, risk: real, level: string)

  /** The route payload as the page reads it; the optional fields are the ones
      the page reads with `?.` or `??`. */
  datatype RouteData = RouteData(
    mode: string, preference: string, distanceKm: real, durationMin: real,
    riskLevel: string, avgRisk: Option<real>, highRiskSegments: Option<int>,
    geometry: Option<seq<LatLon>>, riskMarkers: Option<seq<MarkerData>>)

  const SafestExplanation: string :=
    "This route avoids most high-risk areas, but a few elevated-risk segments remain."
  const FastestExplanation: string :=
    "This route prioritizes speed and passes through several high-risk segments."
  const BalancedExplanation: string :=
    "This route balances travel time and safety by avoiding the highest-risk areas where possible."

  /** The explanation shown under a route for its preference. */
  function RouteExplanation(pref: string): (text: string) {
    if pref == "safest" then SafestExplanation
    else if pref == "fastest" then FastestExplanation
    else if pref == "balanced" then BalancedExplanation
    else ""
  }

  /** The three preferences get three different non-empty texts; anything else
      gets the empty text. */
  lemma ExplanationCases(p: string, q: string)
    ensures RouteExplanation(p) != "" <==> p in {"safest", "fastest", "balanced"}
    ensures RouteExplanation(p) != "" && p != q ==> RouteExplanation(p) != RouteExplanation(q)
  {
    assert |SafestExplanation| != |FastestExplanation|;
    assert |SafestExplanation| != |BalancedExplanation|;
    assert |FastestExplanation| != |BalancedExplanation|;
  }

  /** The length of a text as JavaScript counts it: in UTF-16 code units, so a
      character beyond U+FFFF counts twice. */
  function Utf16Length(s: string): (n: nat)
    ensures |s| <= n <= 2 * |s|
  {
    if s == [] then 0
    else Utf16Length(s[..|s| - 1]) + (if s[|s| - 1] as int > 0xFFFF then 2 else 1)
  }

  /** A Search button is enabled when its trimmed text is at least two UTF-16
      code units long. */
  predicate SearchEnabled(text: string) {
    Utf16Length(Trim(text)) >= 2
  }

  /** The client sends the text as typed, and the server counts its length in
      code points. An enabled Search sends at least one character; the server
      accepts the query exactly when it has 2 to 120 code points, so a longer
      text, or a single character beyond U+FFFF, is refused with 422. */
  lemma SearchEnabledMeetsServerCheck(text: string, limit: int)
    requires SearchEnabled(text) && 1 <= limit <= 10
    ensures |text| >= 1
    ensures BackendGeocode.ValidRequest(text, limit) <==> 2 <= |text| <= 120
  {
  }

  /** A lone emoji enables Search, since JavaScript counts it as two code
      units, but the server refuses it as shorter than two characters. */
  lemma LoneEmojiRefused()
    ensures SearchEnabled("\U{1F600}")
    ensures !BackendGeocode.ValidRequest("\U{1F600}", 5)
  {
    var e := "\U{1F600}";
    assert TrimEnd(e) == e && TrimStart(e) == e;
    assert e[..0] == [];
  }

  /** The Find Route button is enabled when both points are chosen and no
      route request is loading. */
  predicate FindEnabled(fromPoint: Option<LatLon>, toPoint: Option<LatLon>, loadingRoute: bool) {
    fromPoint.Some? && toPoint.Some? && !loadingRoute
  }

  /** The polyline of the displayed route: its geometry when that is present
      and not empty. */
  function RouteLine(route: Option<RouteData>): (line: Option<seq<LatLon>>)
    ensures line.Some? <==> route.Some? && route.value.geometry.Some? && |route.value.geometry.value| > 0
    ensures line.Some? ==> line == route.value.geometry
  {
    if route.Some? && route.value.geometry.Some? && |route.value.geometry.value| > 0
    then route.value.geometry
    else None
  }

  /** A circle drawn for a risk marker. */
  datatype Circle = Circle(center: LatLon, risk: real, level: string)

  /** What the map draws: a pin per chosen point, the route polyline and a
      circle per risk marker of the route. */
  datatype MapLayers = MapLayers(pins: seq<LatLon>, polyline: Option<seq<LatLon>>, circles: seq<Circle>)

  function Pins(fromPoint: Option<LatLon>, toPoint: Option<LatLon>): (pins: seq<LatLon>) {
    (if fromPoint.Some? then [fromPoint.value] else []) + (if toPoint.Some? then [toPoint.value] else [])
  }

  function Circles(markers: seq<MarkerData>): (cs: seq<Circle>)
    ensures |cs| == |markers|
    ensures forall i :: 0 <= i < |markers| ==>
              cs[i] == Circle(LatLon(markers[i].lat, markers[i].lon), markers[i].risk, markers[i].level)
  {
    if markers == [] then []
    else Circles(markers[..|markers| - 1]) + [Circle(LatLon(markers[|markers| - 1].lat, markers[|markers| - 1].lon),
                                                     markers[|markers| - 1].risk, markers[|markers| - 1].level)]
  }

  function Layers(fromPoint: Option<LatLon>, toPoint: Option<LatLon>, route: Option<RouteData>): (layers: MapLayers) {
    MapLayers(Pins(fromPoint, toPoint), RouteLine(route),
              if route.Some? && route.value.riskMarkers.Some? then Circles(route.value.riskMarkers.value) else [])
  }

  /** The projection draws exactly the chosen points (origin first), a polyline
      only for a displayed route with geometry, and one circle per marker of
      the displayed route at that marker's position; with no route, nothing
      but the pins. */
  lemma LayersProjection(fromPoint: Option<LatLon>, toPoint: Option<LatLon>, route: Option<RouteData>)
    ensures var l := Layers(fromPoint, toPoint, route);
            && |l.pins| == (if fromPoint.Some? then 1 else 0) + (if toPoint.Some? then 1 else 0)
            && (fromPoint.Some? ==> l.pins[0] == fromPoint.value)
            && (toPoint.Some? ==> l.pins[|l.pins| - 1] == toPoint.value)
            && (route.None? ==> l.polyline.None? && l.circles == [])
            && (l.polyline.Some? ==> route.Some? && l.polyline == route.value.geometry)
            && (route.Some? && route.value.riskMarkers.Some? ==>
                  var ms := route.value.riskMarkers.value;
                  |l.circles| == |ms|
                  && forall i :: 0 <= i < |ms| ==> l.circles[i].center == LatLon(ms[i].lat, ms[i].lon)
                                                   && l.circles[i].risk == ms[i].risk)
  {
  }
}
