/**
 * The server's `/geocode` endpoint: validate the request, ask the place-search
 * service (its reply is a parameter here) and keep only the suggestions that
 * parse and fall inside the coverage box, in the service's order.
 */
module BackendGeocode {
  import opened Wrappers
  import opened Text
  import opened Geo
  import opened Backend

  /** One raw search hit. `lat`/`lon` are `None` when the key is missing or its
      value does not parse as a float; `displayName` is `None` when the key is missing. */
  datatype RawItem = RawItem(lat: Option<real>, lon: Option<real>, displayName: Option<string>)

  /** The endpoint's JSON answer: `{results}` or `{results: [], message}`. */
  datatype GeocodeReply = GeocodeReply(results: seq<Candidate>, message: Option<string>)

  const NotCoveredMessage: string :=
    "Location not available. This application currently supports routes within Greater London only."

  /** A hit survives the filter when both coordinates parse and lie in the box. */
  predicate Qualifies(item: RawItem) {
    item.lat.Some? && item.lon.Some? && InGreaterLondon(item.lat.value, item.lon.value)
  }

  /** The suggestion built from a surviving hit; the name defaults to the stripped query. */
  function ToCandidate(item: RawItem, q: string): (c: Candidate)
    requires Qualifies(item)
  {
    Candidate(item.displayName.GetOr(q), item.lat.value, item.lon.value)
  }

  /** The filter's result on a list of hits (defined on prefixes, as the loop builds it). */
  function Kept(items: seq<RawItem>, q: string): (r: seq<Candidate>)
    ensures |r| <= |items|
    ensures forall c :: c in r ==> InGreaterLondon(c.lat, c.lon)
  {
    if items == [] then []
    else
      var last := items[|items| - 1];
      Kept(items[..|items| - 1], q) + (if Qualifies(last) then [ToCandidate(last, q)] else [])
  }

  /** The positions of the hits that survive, in increasing order. */
  function QualifyingIndices(items: seq<RawItem>): (idx: seq<nat>)
    ensures forall j :: 0 <= j < |idx| ==> idx[j] < |items| && Qualifies(items[idx[j]])
    ensures forall j1, j2 :: 0 <= j1 < j2 < |idx| ==> idx[j1] < idx[j2]
    ensures forall i :: 0 <= i < |items| && Qualifies(items[i]) ==> i in idx
  {
    if items == [] then []
    else
      var n := |items| - 1;
      var prev := QualifyingIndices(items[..n]);
      assert forall j :: 0 <= j < |prev| ==> items[..n][prev[j]] == items[prev[j]];
      prev + (if Qualifies(items[n]) then [n] else [])
  }

  /** The filter keeps exactly the qualifying hits, in their original order:
      the j-th result is built from the j-th qualifying position. */
  lemma {:induction false} KeptIsQualifyingInOrder(items: seq<RawItem>, q: string)
    ensures |Kept(items, q)| == |QualifyingIndices(items)|
    ensures forall j :: 0 <= j < |Kept(items, q)| ==>
              Kept(items, q)[j] == ToCandidate(items[QualifyingIndices(items)[j]], q)
  {
    if items != [] {
      var n := |items| - 1;
      var init := items[..n];
      KeptIsQualifyingInOrder(init, q);
      var kept, idx := Kept(items, q), QualifyingIndices(items);
      var prevKept, prevIdx := Kept(init, q), QualifyingIndices(init);
      assert kept[..|prevKept|] == prevKept && idx[..|prevIdx|] == prevIdx;
      forall j | 0 <= j < |kept|
        ensures kept[j] == ToCandidate(items[idx[j]], q)
      {
        if j < |prevKept| {
          assert kept[j] == prevKept[j] && idx[j] == prevIdx[j];
          assert init[prevIdx[j]] == items[prevIdx[j]];
        }
      }
    }
  }

  /** Filtering a concatenation filters each part. */
  lemma {:induction false} KeptAppend(a: seq<RawItem>, b: seq<RawItem>, q: string)
    ensures Kept(a + b, q) == Kept(a, q) + Kept(b, q)
  {
    if b != [] {
      var n := |b| - 1;
      assert (a + b)[..|a + b| - 1] == a + b[..n];
      KeptAppend(a, b[..n], q);
    } else {
      assert a + b == a;
    }
  }

  /** The filter loop. */
  method FilterResults(items: seq<RawItem>, q: string) returns (filtered: seq<Candidate>)
    ensures filtered == Kept(items, q)
  {
    filtered := [];
    var i := 0;
    while i < |items|
      invariant 0 <= i <= |items|
      invariant filtered == Kept(items[..i], q)
    {
      var item := items[i];
      assert items[..i + 1][..i] == items[..i];
      if item.lat.Some? && item.lon.Some? {
        var lat, lon := item.lat.value, item.lon.value;
        if InGreaterLondon(lat, lon) {
          filtered := filtered + [Candidate(item.displayName.GetOr(q), lat, lon)];
        }
      }
      i := i + 1;
    }
    assert items[..i] == items;
  }

  /** The answer for a filtered list: an empty list carries the coverage message. */
  function ReplyFor(filtered: seq<Candidate>): (reply: GeocodeReply)
    ensures reply.results == filtered
    ensures reply.message.Some? <==> filtered == []
    ensures reply.message.Some? ==> reply.message.value == NotCoveredMessage
  {
    if filtered == [] then GeocodeReply([], Some(NotCoveredMessage))
    else GeocodeReply(filtered, None)
  }

  /** The request is valid when the (unstripped) query has 2..120 characters and
      the limit is 1..10. */
  predicate ValidRequest(query: string, limit: int) {
    2 <= |query| <= 120 && 1 <= limit <= 10
  }

  /** The endpoint. `upstream` is the place-search reply for the stripped query,
      or the text of the exception it raised. */
  method Geocode(query: string, limit: int, upstream: Result<seq<RawItem>, string>)
    returns (reply: Result<GeocodeReply, HttpError>)
    ensures !ValidRequest(query, limit) ==> reply == Failure(HttpError(422, None))
    ensures ValidRequest(query, limit) && upstream.Failure? ==>
              reply == Failure(HttpError(502, Some("Geocoding failed: " + upstream.error)))
    ensures ValidRequest(query, limit) && upstream.Success? ==>
              reply == Success(ReplyFor(Kept(upstream.value, Trim(query))))
    ensures reply.Success? ==> (reply.value.message.Some? <==> reply.value.results == [])
    ensures reply.Success? ==> forall c :: c in reply.value.results ==> InGreaterLondon(c.lat, c.lon)
    ensures reply.Success? && |upstream.value| <= limit ==> |reply.value.results| <= limit
  {
    if !ValidRequest(query, limit) {
      return Failure(HttpError(422, None));
    }
    var q := Trim(query);
    if upstream.Failure? {
      return Failure(HttpError(502, Some("Geocoding failed: " + upstream.error)));
    }
    var filtered := FilterResults(upstream.value, q);
    reply := Success(ReplyFor(filtered));
  }
}
