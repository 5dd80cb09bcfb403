# Smart Routes — a Dafny model of the route-planning core

Smart Routes finds a walking or driving route between two places in Greater
London. It ranks the route by one of three preferences: fastest, balanced or
safest. The project models three parts of it:

- **The map page's planning session** (`MapPage.jsx`). The page keeps a travel
  mode, a preference, the displayed route, a status message, and for each of
  the origin and destination roles a text, a chosen point and a list of
  suggestions. It also keeps a "loading" flag. The handlers change this state:
  mode change, preference change, search, choosing a suggestion and finding a
  route. `MapSession.Session` models the page as a class with one field per
  state hook and one method per handler. Each request is split in two: the
  handler that sends it returns what it sends, and a second method applies the
  answer when it arrives. The pure parts of the page are in `MapView`: the
  explanation text, the enable conditions of the buttons, the polyline and the
  map layers.
- **The stand-alone routing helpers** (`routing_utils.py`), in `RoutingUtils`.
  They are the Greater London coverage box and a cost formula with
  coefficients 0.5 and 2.0.
- **The server's own logic** (`main.py`), in four modules:
  - `Backend`: the server's copy of the coverage box, its own edge cost with
    coefficients 1.0 and 4.0, the risk bands and the travel-time estimate.
  - `BackendGeocode`: the `/geocode` filter and reply.
  - `RiskLookup`: the start-up fill of the risk table in both directions.
  - `BackendRoute`: the `/route` endpoint. This covers the coverage rejection,
    the least-cost choice among parallel edges, the risk-summary loop with its
    every-third-marker rule, the distance loop and the time estimate.

Numbers are Dafny `real`s. `Option` stands for JSON `null` and Python `None`.

Foreign code is passed in as parameters:
- the place-search reply;
- the shortest path;
- the map positions of nodes and of midpoints between nodes;
- the outcome of the bearer-token check;
- the stored token.

Where the design description and the code disagree, the model follows the code:
- **No request counter.** The page has no request counter, so a route answer
  is applied whenever it arrives. `MapSession.LastArrivalWins` shows that the
  answer arriving last is displayed even when it belongs to the earlier of two
  requests. The UI prevents that overlap: the Find button is disabled while
  loading, and the preference buttons only show with a displayed route, which
  never exists while loading. `Session.SingleFlight` states this, and the UI
  entry points preserve it (`FindRoute` itself preserves it only when nothing
  is loading).
- **Stale answers are displayed.** The mode selector and the search results
  stay usable while a route is loading, and the answer is still applied when
  it arrives. `MapSession.StaleAnswerAfterModeChange` shows a route requested
  for driving displayed after the mode was switched to walking; choosing a new
  endpoint while loading likewise leaves the old endpoints' route to be shown.
- **The route is dropped on a preference change.** Choosing a preference
  sends a new request, and that request clears the displayed route at once
  (MapPage.jsx line 115) instead of keeping it until the new one arrives.
- **Text length is counted twice, differently.** The page enables Search when
  the trimmed text is at least 2 UTF-16 code units long, while the server's
  2-character minimum counts code points. A single character beyond U+FFFF,
  such as an emoji, is therefore sent and refused with 422;
  `MapView.LoneEmojiRefused` exhibits it.
- **Search failures are not reported.** When a search request throws, the page
  shows nothing: the message was cleared when the search was sent and the
  suggestions stay unchanged. When the server answers with an error, the
  suggestions are replaced with `[]` and no message is shown.

## Model

| member | source | states |
|---|---|---|
| Text.Trim | backend/app/main.py:124 | trimming both ends never lengthens the text |
| Text.TrimStart | frontend/src/pages/MapPage.jsx:281 | the result is a suffix of the input, what was dropped is whitespace, and the result does not start with whitespace |
| Text.TrimEnd | frontend/src/pages/MapPage.jsx:320 | the result is a prefix of the input, what was dropped is whitespace, and the result does not end with whitespace |
| Text.TrimBounds | backend/app/main.py:124 | gives the two cut points: the trimmed text is the slice between them and only whitespace lies outside |
| Text.TrimIsInnerSlice | backend/app/main.py:124 | trimming gives a contiguous slice of the text with only whitespace cut from both ends |
| Text.TrimIdempotent | backend/app/main.py:124 | trimming an already trimmed text changes nothing |
| RoutingUtils.InGreaterLondon | backend/app/routing_utils.py:10-14 | the coverage test, inclusive on all four sides of the box |
| RoutingUtils.EdgeCost | backend/app/routing_utils.py:16-27 | a missing length is 1.0 and a missing risk 0.0; fastest and unknown preferences cost the bare length; zero risk costs the length; non-negative inputs never cost less than the length |
| RoutingUtils.CoverageSamples | backend/tests/test_unit_routing_utils.py:4-10 | central London (51.5074, -0.1278) is covered and Birmingham (52.4862, -1.8904) is not |
| RoutingUtils.EdgeCostSamples | backend/tests/test_unit_routing_utils.py:12-26 | the unit tests' sample costs: 100, 110, 140, 100 for an unknown preference, 1.0 when both values are missing |
| RoutingUtils.PreferenceOrder | backend/app/routing_utils.py:21-26 | for non-negative length and risk, fastest <= balanced <= safest |
| Backend.InGreaterLondon | backend/app/main.py:57-61 | the server's own copy of the inclusive coverage test |
| Backend.EdgeCost | backend/app/main.py:172-182 | the server's cost: length defaults to 1.0 and table risk to 0.0; fastest and unknown preferences cost the length; never below the length for non-negative inputs |
| Backend.CoverageAgrees | backend/app/main.py:49-61 | the server's coverage box accepts exactly the points the helper module's box accepts |
| Backend.LevelOf | backend/app/main.py:184-189 | the risk band of a risk value; its bands are stated by LevelBands |
| Backend.LevelBands | backend/app/main.py:184-189 | high iff risk >= 0.6, medium iff 0.3 <= risk < 0.6, low iff risk < 0.3 |
| Backend.LevelMonotone | backend/app/main.py:184-189 | a larger risk never gets a lower band |
| Backend.CostOrder | backend/app/main.py:172-182 | fastest <= balanced <= safest; the server's cost is never below the helper module's cost, and equals it for fastest and unknown preferences |
| Backend.SpeedKmh | backend/app/main.py:318 | the assumed speed is always positive (25 km/h driving, 4.8 otherwise) |
| Backend.DurationMin | backend/app/main.py:318-319 | minutes for a distance at the mode's speed; its properties are stated by DurationProperties |
| Backend.DurationProperties | backend/app/main.py:315-319 | walking time is 25/4.8 times driving time; driving takes 2.4 minutes per km; a non-negative distance never takes negative time |
| BackendGeocode.Kept | backend/app/main.py:136-151 | the filtered list is no longer than the input and every kept suggestion lies in the coverage box |
| BackendGeocode.QualifyingIndices | backend/app/main.py:137-145 | the positions of the hits that parse and lie in the box: strictly increasing, and every such hit is listed |
| BackendGeocode.KeptIsQualifyingInOrder | backend/app/main.py:136-151 | the filter keeps exactly the qualifying hits in their original order; each name defaults to the stripped query |
| BackendGeocode.KeptAppend | backend/app/main.py:136-151 | filtering a concatenation is the concatenation of the filtered parts |
| BackendGeocode.FilterResults | backend/app/main.py:136-151 | the filter loop computes exactly the filtered list |
| BackendGeocode.ReplyFor | backend/app/main.py:153-159 | the reply always carries the filtered list, and carries the coverage message exactly when that list is empty |
| BackendGeocode.Geocode | backend/app/main.py:118-159 | an invalid request gives 422 and a search failure 502 with "Geocoding failed: " and the error; otherwise the reply is the filtered list, with the coverage message exactly when it is empty; all results lie in the box and respect the limit |
| RiskLookup.TableOf | backend/app/main.py:24-29 | after each insert, both (u, v, k) and (v, u, k) map to that row's value |
| RiskLookup.TableSymmetric | backend/app/main.py:24-29 | every entry's reverse is present with the same value |
| RiskLookup.TableKeys | backend/app/main.py:24-29 | the keys are exactly the forward and backward keys of the rows |
| RiskLookup.LastWriterWins | backend/app/main.py:24-29 | each entry holds the value of the last row that writes it |
| RiskLookup.FillRiskLookup | backend/app/main.py:24-29 | the start-up loop builds exactly that table |
| BackendRoute.FirstMinIndex | backend/app/main.py:255-267 | the index of the edge the strict `<` scan keeps, always a valid position; see FirstMinIndexIsFirstLeast |
| BackendRoute.FirstMinIndexIsFirstLeast | backend/app/main.py:255-267 | the chosen parallel edge has the least cost, and every earlier edge costs strictly more, so it is the first of least cost |
| BackendRoute.ChooseEdge | backend/app/main.py:255-267 | the inner loop returns that edge's key, its table risk (0.0 if absent) and its length (0.0 if absent); nothing when there are no edges |
| BackendRoute.HighCount | backend/app/main.py:276-280 | the number of high-risk steps never exceeds the number of steps |
| BackendRoute.Markers | backend/app/main.py:279-295 | every marker has risk >= 0.6 and level high |
| BackendRoute.MarkerCount | backend/app/main.py:282-283 | one marker per started group of three high-risk steps: (high_count + 2) / 3 markers |
| BackendRoute.AddRecord | backend/app/main.py:269-295 | storing one record keeps the list of markers, the risk sum, the count and the high count equal to their definitions on the longer list |
| BackendRoute.SummaryStep | backend/app/main.py:249-295 | one round of the loop appends the record of the step's picked edge, or nothing when the nodes are not connected, and keeps all totals in step |
| BackendRoute.RiskSummary | backend/app/main.py:239-295 | the summary loop computes the per-step records, the risk sum, the count, the high count and the markers |
| BackendRoute.AvgRisk | backend/app/main.py:297 | the sum over the count, or 0.0 when nothing was counted; bounded by AvgRiskBounded |
| BackendRoute.SegmentRisksBounded | backend/app/main.py:261 | with a table of probabilities, every picked risk is in [0, 1] |
| BackendRoute.RiskSumBounded | backend/app/main.py:277 | risks in [0, 1] sum to between 0 and the number of steps |
| BackendRoute.AvgRiskBounded | backend/app/main.py:297 | records whose risks are in [0, 1] have an average in [0, 1], and 0 when there are none |
| BackendRoute.AvgRiskIsProbability | backend/app/main.py:297 | with a table of probabilities, the average risk (0 for no steps) is in [0, 1] |
| BackendRoute.MinLength | backend/app/main.py:313 | the minimum length is at most every parallel edge's length |
| BackendRoute.MinLengthAttained | backend/app/main.py:313 | the minimum is the length of one of the parallel edges |
| BackendRoute.PathDistance | backend/app/main.py:308-313 | the distance loop sums the shortest parallel edge of each connected step |
| BackendRoute.StepAtMostPicked | backend/app/main.py:255-267 | a step's shortest parallel edge is never longer than the edge the summary picks for it |
| BackendRoute.DistanceAtMostPicked | backend/app/main.py:308-313 | the reported distance never exceeds the summed length of the edges the summary picked |
| BackendRoute.Geometry | backend/app/main.py:300-305 | one map position per path node, in path order |
| BackendRoute.BuildResponse | backend/app/main.py:239-333 | the response carries the mode, the preference, the summary, the average and its band, the distance in km, the time estimate and the geometry |
| BackendRoute.Route | backend/app/main.py:191-233 | a token failure comes first, then 422 for a bad mode or preference; 400 OUT_OF_COVERAGE exactly when an endpoint is outside the box; 404 exactly when no path exists; success exactly for covered endpoints and a found path, and then the response summarizes that path |
| MapView.RouteExplanation | frontend/src/pages/MapPage.jsx:149-160 | the explanation text of a preference; its cases are stated by ExplanationCases |
| MapView.ExplanationCases | frontend/src/pages/MapPage.jsx:149-160 | the explanation is non-empty exactly for safest, fastest and balanced, and differs between them |
| MapView.Utf16Length | frontend/src/pages/MapPage.jsx:281 | the JavaScript length of a text: between its number of characters and twice that, a character beyond U+FFFF counting twice |
| MapView.SearchEnabled | frontend/src/pages/MapPage.jsx:281 | a Search button is enabled when its trimmed text is at least two UTF-16 code units long |
| MapView.SearchEnabledMeetsServerCheck | frontend/src/pages/MapPage.jsx:278-284 | the text an enabled Search sends as typed is not empty, and the server accepts it exactly when it has 2 to 120 characters |
| MapView.LoneEmojiRefused | frontend/src/pages/MapPage.jsx:281 | a lone emoji enables Search, yet the server refuses it as shorter than two characters |
| MapView.FindEnabled | frontend/src/pages/MapPage.jsx:350 | Find Route is enabled when both points are chosen and nothing is loading; PressFindRoute states what pressing it does |
| MapView.RouteLine | frontend/src/pages/MapPage.jsx:43-46 | a polyline exists exactly when the route has a non-empty geometry, and it is that geometry |
| MapView.Circles | frontend/src/pages/MapPage.jsx:451-471 | one circle per risk marker, at its position, with its risk and level |
| MapView.Pins | frontend/src/pages/MapPage.jsx:448-449 | a pin for each chosen point, origin first; see LayersProjection |
| MapView.Layers | frontend/src/pages/MapPage.jsx:448-471 | the pins, the polyline and the circles drawn for a state; see LayersProjection |
| MapView.LayersProjection | frontend/src/pages/MapPage.jsx:448-471 | a pin for each chosen point, origin first; with no route, no polyline and no circles |
| MapSession.PrefToUse | frontend/src/pages/MapPage.jsx:110 | a non-empty override wins; otherwise the current preference is used |
| MapSession.Session.constructor | frontend/src/pages/MapPage.jsx:27-41 | initial state: drive, fastest, no route, empty texts and lists, not loading |
| MapSession.Session.SetText | frontend/src/pages/MapPage.jsx:272-277 | typing changes only that role's text |
| MapSession.Session.OnModeChange | frontend/src/pages/MapPage.jsx:55-58 | sets the mode, drops the route, shows the mode-changed message, sends nothing, changes nothing else |
| MapSession.Session.ModeMessageTimeout | frontend/src/pages/MapPage.jsx:61-63 | the timer clears the message only |
| MapSession.Session.Geocode | frontend/src/pages/MapPage.jsx:76-82 | sending a search clears the message and sends the raw text with limit 5 |
| MapSession.Session.PressSearch | frontend/src/pages/MapPage.jsx:276-281 | the enabled Search sends its role's text as typed with limit 5; it is not empty and is accepted by the server exactly when it has 2 to 120 characters; only the message is cleared |
| MapSession.Session.GeocodeAnswer | frontend/src/pages/MapPage.jsx:84-88 | a non-empty service message is shown; only that role's suggestions are replaced, by the results or [] when absent; a thrown exchange changes nothing |
| MapSession.Session.SelectResult | frontend/src/pages/MapPage.jsx:91-105 | sets the role's point, text and empty suggestion list; clears route and message; the other role is untouched |
| MapSession.Session.FindRoute | frontend/src/pages/MapPage.jsx:107-130 | with a point missing, nothing changes and nothing is sent; otherwise loading starts, message and route are cleared, and both points, the mode and the preference to use are sent |
| MapSession.Session.PressFindRoute | frontend/src/pages/MapPage.jsx:343-350 | the enabled button always sends, and keeps exactly one request in flight |
| MapSession.Session.RouteAnswer | frontend/src/pages/MapPage.jsx:132-146 | ok: the payload is displayed and the used preference adopted; otherwise the detail string or "Route failed." or the error text is shown; loading always ends |
| MapSession.Session.OnPreferenceChange | frontend/src/pages/MapPage.jsx:66-74 | records the preference and clears the message; sends one request with the new preference exactly when a route was displayed |
| MapSession.LastArrivalWins | frontend/src/pages/MapPage.jsx:107-147 | two overlapping requests: the answer arriving last is displayed, even if it belongs to the earlier request |
| MapSession.StaleAnswerAfterModeChange | frontend/src/pages/MapPage.jsx:55-58 | a mode change while a drive route is loading does not stop its answer: the drive route is displayed with the mode set to walk |

## Left out

- Network calls are not modelled: `fetch`, the place-search HTTP call, FastAPI routing and CORS. Their replies are inputs to the answer methods and parameters of the endpoints.
- The graph is not modelled: loading and caching, projection, nearest-node search and the shortest-path search (`backend/app/main.py:76-104`, `199-233`). The path is a parameter, `None` when no path exists.
- BackendRoute.Route: the 404 follows the handler for a missing path in `backend/app/main.py:225-232`, and the model assumes the search raises when no path exists. If the search returned `None` instead, the summary loop would fail on it and the server would answer 500; that case is not modelled.
- The weight callback given to the shortest-path search (`backend/app/main.py:211-221`) is left out with that search.
- Node and midpoint coordinates after projection are given as functions, because the coordinate transformer is a foreign library.
- Authentication is a parameter: the outcome of the bearer-token dependency. Token decoding, the user lookup and the rest of `auth/`, `database.py` and the schemas are not part of this model.
- The model checks the token before request validation. This is the order in which the web framework resolves a dependency and a request body.
- Python `round` in the `/route` reply and `Math.round` in the safety display are not modelled; all arithmetic is exact over reals.
- A request-validation error's detail is a list, not a string. It is modelled as `None`, and its contents are not modelled.
- The conversion of hit coordinates with `float()` is modelled as `Option`: `None` when the key is missing or the value does not parse.
- The `int`/`float` conversions of the risk-layer rows and the CSV read are not modelled; rows arrive as numbers.
- Text.Trim: only ASCII whitespace is trimmed, as in Text.TrimStart below.
- Text.TrimEnd: only ASCII whitespace is trimmed, as in Text.TrimStart below.
- Text.TrimStart: only ASCII whitespace (space, tab, line feed, vertical tab, form feed, carriage return) is trimmed. Other Unicode spaces are not, and neither are the separators U+001C–U+001F that Python also strips.
- The `which` argument is a two-valued role, because the page only ever passes "from" or "to". The handling of any other string is not modelled: the search would ignore it, and choosing a suggestion would treat it as "to".
- MapSession.Session.OnPreferenceChange: the page's `findRoute` reads the preference captured before the change. With an empty preference name it would therefore fall back to the old preference, while the model uses the updated one. The three buttons never pass an empty name.
- Each `setX` call is applied at once. React's batching of updates within one handler is not modelled; within the handlers modelled here it does not change what is read.
- The route summary card shows distance, time and risk. It is display only, and apart from the explanation text it is not modelled.
- The following are not modelled: logout and navigation, the `/health` endpoint, the start-up prints, the landing page and the sign-up page.
- The search limit passed on to the search service is not enforced by the model. `BackendGeocode.Geocode` only shows that it carries through when the service respects it.
