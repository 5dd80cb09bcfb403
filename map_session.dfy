/**
 * The route-planning session of the map page. Every state hook of the page is
 * a field and every `setX` call an update of that field. Each request the page
 * sends is split in two: the handler that issues it (returning what it sends)
 * and the continuation that runs when its answer arrives (taking the answer).
 * There is no request counter: an answer is applied whenever it arrives.
 */
module MapSession {
  import opened Wrappers
  import opened Geo
  import opened MapView
  import BackendGeocode

  datatype Role = From | To

  /** A `/geocode` request: the raw text of the role's input and the limit 5. */
  datatype GeocodeCall = GeocodeCall(query: string, limit: nat)

  /** The JSON body of a `/geocode` answer, ok or not; an empty message counts
      as no message. */
  datatype GeocodeData = GeocodeData(results: Option<seq<Candidate>>, message: Option<string>)

  /** A `/geocode` exchange: the body arrived, or fetching or parsing it threw. */
  datatype GeocodeOutcome = GeocodeReceived(data: GeocodeData) | GeocodeThrew

  /** A `/route` request: both points, the mode and the preference used, and
      the stored token (`None` when nothing is stored). */
  datatype RouteCall = RouteCall(origin: LatLon, destination: LatLon, mode: string, preference: string,
                                 token: Option<string>)

  /** A `/route` exchange: an ok answer with its payload, a non-ok answer with
      its `detail` when that is a string, or the text of a thrown error. */
  datatype RouteOutcome = RouteOk(data: RouteData) | RouteNotOk(detail: Option<string>) | RouteThrew(error: string)

  const ModeChangedMessage: string := "Mode changed - click Find Route to generate a new route."
  const RouteFailedMessage: string := "Route failed."
  const GeocodeLimit: nat := 5

  /** The whole state of a session, plus the route requests still awaiting an answer. */
  datatype SessionState = SessionState(
    mode: string, preference: string, route: Option<RouteData>, message: string,
    fromText: string, toText: string, fromPoint: Option<LatLon>, toPoint: Option<LatLon>,
    fromResults: seq<Candidate>, toResults: seq<Candidate>, loadingRoute: bool,
    pending: seq<RouteCall>)

  /** `prefOverride || preference`: an empty override counts as none. */
  function PrefToUse(prefOverride: Option<string>, preference: string): (p: string)
    ensures prefOverride.Some? && prefOverride.value != "" ==> p == prefOverride.value
    ensures prefOverride.None? || prefOverride.value == "" ==> p == preference
  {
    if prefOverride.Some? && prefOverride.value != "" then prefOverride.value else preference
  }

  /** The message a failed route exchange shows. */
  function FailureMessage(outcome: RouteOutcome): (text: string)
    requires !outcome.RouteOk?
  {
    match outcome
    case RouteNotOk(detail) => detail.GetOr(RouteFailedMessage)
    case RouteThrew(error) => error
  }

  function Remove(calls: seq<RouteCall>, call: RouteCall): (r: seq<RouteCall>)
    requires call in calls
    ensures |r| == |calls| - 1
    ensures multiset(r) == multiset(calls) - multiset{call}
  {
    assert calls == [calls[0]] + calls[1..];
    if calls[0] == call then calls[1..]
    else [calls[0]] + Remove(calls[1..], call)
  }

  class Session {
    var mode: string
    var preference: string
    var route: Option<RouteData>
    var message: string
    var fromText: string
    var toText: string
    var fromPoint: Option<LatLon>
    var toPoint: Option<LatLon>
    var fromResults: seq<Candidate>
    var toResults: seq<Candidate>
    var loadingRoute: bool
    ghost var pending: seq<RouteCall>

    ghost function State(): SessionState
      reads this
    {
      SessionState(mode, preference, route, message, fromText, toText, fromPoint, toPoint,
                   fromResults, toResults, loadingRoute, pending)
    }

    /** At most one route request is awaiting its answer, the page shows
        "loading" exactly while one is, and no route is displayed meanwhile. */
    ghost predicate SingleFlight()
      reads this
    {
      |pending| <= 1 && (loadingRoute <==> |pending| == 1) && (route.Some? ==> !loadingRoute)
    }

    /** A route is displayed or requested only while both points are chosen
        (once chosen, a point is never unset). */
    ghost predicate Resolved()
      reads this
    {
      route.Some? || pending != [] ==> fromPoint.Some? && toPoint.Some?
    }

    /** The page as first rendered. */
    constructor ()
      ensures State() == SessionState("drive", "fastest", None, "", "", "", None, None, [], [], false, [])
      ensures SingleFlight() && Resolved()
    {
      mode, preference, route, message := "drive", "fastest", None, "";
      fromText, toText, fromPoint, toPoint := "", "", None, None;
      fromResults, toResults, loadingRoute := [], [], false;
      pending := [];
    }

    /** Typing into a role's input. */
    method SetText(which: Role, text: string)
      modifies this
      ensures which == From ==> State() == old(State()).(fromText := text)
      ensures which == To ==> State() == old(State()).(toText := text)
      ensures old(SingleFlight()) ==> SingleFlight()
      ensures old(Resolved()) ==> Resolved()
    {
      if which == From { fromText := text; } else { toText := text; }
    }

    /** A mode button: the displayed route is dropped and the user is told to
        search again; nothing is fetched. */
    method OnModeChange(nextMode: string)
      modifies this
      ensures State() == old(State()).(mode := nextMode, route := None, message := ModeChangedMessage)
      ensures old(SingleFlight()) ==> SingleFlight()
      ensures old(Resolved()) ==> Resolved()
    {
      mode := nextMode;
      route := None;
      message := ModeChangedMessage;
    }

    /** The timer set by a mode change, three seconds later. */
    method ModeMessageTimeout()
      modifies this
      ensures State() == old(State()).(message := "")
      ensures old(SingleFlight()) ==> SingleFlight()
      ensures old(Resolved()) ==> Resolved()
    {
      message := "";
    }

    /** Issuing a search: the message is cleared and the query is sent as typed. */
    method Geocode(query: string, which: Role) returns (call: GeocodeCall)
      modifies this
      ensures call == GeocodeCall(query, GeocodeLimit)
      ensures State() == old(State()).(message := "")
      ensures old(SingleFlight()) ==> SingleFlight()
      ensures old(Resolved()) ==> Resolved()
    {
      message := "";
      call := GeocodeCall(query, GeocodeLimit);
    }

    /** Pressing an enabled Search button: the role's text is sent as typed.
        It is not empty, and the server accepts it exactly when it has 2 to
        120 characters. */
    method PressSearch(which: Role) returns (call: GeocodeCall)
      requires SearchEnabled(if which == From then fromText else toText)
      modifies this
      ensures call == GeocodeCall(old(if which == From then fromText else toText), GeocodeLimit)
      ensures |call.query| >= 1
      ensures BackendGeocode.ValidRequest(call.query, call.limit) <==> 2 <= |call.query| <= 120
      ensures State() == old(State()).(message := "")
      ensures old(SingleFlight()) ==> SingleFlight()
      ensures old(Resolved()) ==> Resolved()
    {
      var text := if which == From then fromText else toText;
      SearchEnabledMeetsServerCheck(text, GeocodeLimit);
      call := Geocode(text, which);
    }

    /** A search's answer arrives: a non-empty service message is shown, and
        the role's suggestions become the answer's results ([] when absent);
        the other role is untouched. If the exchange threw, nothing changes. */
    method GeocodeAnswer(which: Role, outcome: GeocodeOutcome)
      modifies this
      ensures outcome.GeocodeThrew? ==> State() == old(State())
      ensures outcome.GeocodeReceived? ==>
                var d := outcome.data;
                var msg := if d.message.Some? && d.message.value != "" then d.message.value else old(message);
                var results := d.results.GetOr([]);
                State() == if which == From then old(State()).(message := msg, fromResults := results)
                           else old(State()).(message := msg, toResults := results)
      ensures old(SingleFlight()) ==> SingleFlight()
      ensures old(Resolved()) ==> Resolved()
    {
      if outcome.GeocodeThrew? {
        return;
      }
      var data := outcome.data;
      if data.message.Some? && data.message.value != "" {
        message := data.message.value;
      }
      if which == From {
        fromResults := data.results.GetOr([]);
      }
      if which == To {
        toResults := data.results.GetOr([]);
      }
    }

    /** Choosing a suggestion: the role's point, text and suggestions are set
        from it, and the displayed route and the message are cleared; the other
        role is untouched. */
    method SelectResult(which: Role, item: Candidate)
      modifies this
      ensures which == From ==> State() == old(State()).(route := None, message := "",
                fromPoint := Some(LatLon(item.lat, item.lon)), fromText := item.displayName, fromResults := [])
      ensures which == To ==> State() == old(State()).(route := None, message := "",
                toPoint := Some(LatLon(item.lat, item.lon)), toText := item.displayName, toResults := [])
      ensures old(SingleFlight()) ==> SingleFlight()
      ensures old(Resolved()) ==> Resolved()
    {
      var point := LatLon(item.lat, item.lon);
      route, message := None, "";
      if which == From {
        fromPoint, fromText, fromResults := Some(point), item.displayName, [];
      } else {
        toPoint, toText, toResults := Some(point), item.displayName, [];
      }
    }

    /** Issuing a route request. Without both points it does nothing at all.
        Otherwise it shows "loading", clears the message and the displayed
        route, and sends both points, the mode and the preference to use. */
    method FindRoute(prefOverride: Option<string>, token: Option<string>) returns (call: Option<RouteCall>)
      modifies this
      ensures old(fromPoint.None? || toPoint.None?) ==> call.None? && State() == old(State())
      ensures old(fromPoint.Some? && toPoint.Some?) ==>
                && call == Some(RouteCall(old(fromPoint.value), old(toPoint.value), old(mode),
                                          PrefToUse(prefOverride, old(preference)), token))
                && State() == old(State()).(loadingRoute := true, message := "", route := None,
                                            pending := old(pending) + [call.value])
      ensures old(SingleFlight()) && old(!loadingRoute) ==> SingleFlight()
      ensures old(Resolved()) ==> Resolved()
    {
      if fromPoint.None? || toPoint.None? {
        return None;
      }
      var prefToUse := PrefToUse(prefOverride, preference);
      loadingRoute := true;
      message := "";
      route := None;
      call := Some(RouteCall(fromPoint.value, toPoint.value, mode, prefToUse, token));
      pending := pending + [call.value];
    }

    /** The Find Route button, which is disabled unless both points are chosen
        and nothing is loading: it always sends, and keeps a single request in
        flight. */
    method PressFindRoute(token: Option<string>) returns (call: Option<RouteCall>)
      requires FindEnabled(fromPoint, toPoint, loadingRoute)
      modifies this
      ensures call == Some(RouteCall(old(fromPoint.value), old(toPoint.value), old(mode), old(preference), token))
      ensures State() == old(State()).(loadingRoute := true, message := "", route := None,
                                       pending := old(pending) + [call.value])
      ensures old(SingleFlight()) ==> SingleFlight() && pending == [call.value]
      ensures old(Resolved()) ==> Resolved()
    {
      call := FindRoute(None, token);
    }

    /** A route request's answer arrives. Ok: the payload becomes the displayed
        route and the preference becomes the one the request used. Not ok or
        thrown: the failure is shown. In every case loading ends. */
    method RouteAnswer(call: RouteCall, outcome: RouteOutcome)
      requires call in pending
      modifies this
      ensures outcome.RouteOk? ==>
                State() == old(State()).(route := Some(outcome.data), preference := call.preference,
                                         loadingRoute := false, pending := Remove(old(pending), call))
      ensures !outcome.RouteOk? ==>
                State() == old(State()).(message := FailureMessage(outcome),
                                         loadingRoute := false, pending := Remove(old(pending), call))
      ensures old(SingleFlight()) ==> SingleFlight()
      ensures old(Resolved()) ==> Resolved()
    {
      if outcome.RouteOk? {
        route := Some(outcome.data);
        preference := call.preference;
      } else {
        message := FailureMessage(outcome);
      }
      loadingRoute := false;
      pending := Remove(pending, call);
    }

    /** A preference button: the preference is recorded and the message
        cleared; only when a route is displayed is it fetched again, with the
        new preference. */
    method OnPreferenceChange(nextPreference: string, token: Option<string>) returns (call: Option<RouteCall>)
      modifies this
      ensures old(route.None?) ==>
                call.None? && State() == old(State()).(preference := nextPreference, message := "")
      ensures old(route.Some?) && old(Resolved()) ==>
                && call == Some(RouteCall(old(fromPoint.value), old(toPoint.value), old(mode), nextPreference, token))
                && State() == old(State()).(preference := nextPreference, loadingRoute := true, message := "",
                                            route := None, pending := old(pending) + [call.value])
      ensures old(SingleFlight()) ==> SingleFlight()
      ensures old(Resolved()) ==> Resolved()
    {
      preference := nextPreference;
      message := "";
      if route.None? {
        return None;
      }
      call := FindRoute(Some(nextPreference), token);
    }
  }

  /** The page has no request counter, so when its findRoute runs twice before
      the first answer arrives (which the disabled button prevents), the answer
      that arrives last is displayed even if it belongs to the earlier request. */
  method LastArrivalWins(a: Candidate, b: Candidate, first: RouteData, second: RouteData)
    returns (shown: Option<RouteData>, shownPreference: string)
    ensures shown == Some(first) && shownPreference == "fastest"
  {
    var s := new Session();
    s.SelectResult(From, a);
    s.SelectResult(To, b);
    var c1 := s.FindRoute(None, None);
    var c2 := s.FindRoute(Some("safest"), None);
    s.RouteAnswer(c2.value, RouteOk(second));
    s.RouteAnswer(c1.value, RouteOk(first));
    shown, shownPreference := s.route, s.preference;
  }

  /** A route answer arriving after a mode change is still displayed: the page
      shows the driving route it asked for while the mode now says walk. */
  method StaleAnswerAfterModeChange(a: Candidate, b: Candidate, d: RouteData)
    returns (sentMode: string, shownMode: string, shown: Option<RouteData>)
    ensures sentMode == "drive" && shownMode == "walk" && shown == Some(d)
  {
    var s := new Session();
    s.SelectResult(From, a);
    s.SelectResult(To, b);
    var c := s.PressFindRoute(None);
    s.OnModeChange("walk");
    s.RouteAnswer(c.value, RouteOk(d));
    sentMode, shownMode, shown := c.value.mode, s.mode, s.route;
  }
}
