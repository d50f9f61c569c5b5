/** Translation of the routing provider's answer into a Route
    (services/trip-service/internal/infrastructure/osrm/client.go, the
    response side of GetRoute). The request itself and JSON decoding are
    not modelled: the input is the reply as the HTTP client saw it. */
module Routing {
  import opened Wrappers
  import opened TripTypes

  /** The GeoJSON geometry of one provider route: positions in [lon, lat] order. */
  datatype ProviderGeometry = ProviderGeometry(kind: string, coordinates: seq<seq<real>>)

  datatype ProviderRoute = ProviderRoute(distance: real, duration: real, geometry: ProviderGeometry)

  /** The decoded body of a routing reply. */
  datatype ProviderResponse = ProviderResponse(code: string, routes: seq<ProviderRoute>)

  /** A body either decodes into a response or it does not. */
  datatype ReplyBody = Undecodable | Decoded(response: ProviderResponse)

  /** What the HTTP round trip produced. */
  datatype HttpReply =
    | TransportFailure
    | Reply(status: int, body: ReplyBody)

  const StatusOK: int := 200

  /** The ways GetRoute fails. */
  datatype RouteError =
    | RequestFailed
    | BadStatus(status: int)
    | DecodeFailed
    | NoRouteFound(code: string)

  /** A position usable as a coordinate has at least a longitude and a latitude. */
  predicate IsPosition(p: seq<real>) {
    |p| >= 2
  }

  /** Indices of the usable positions of `ps`, in increasing order. */
  function PositionIndices(ps: seq<seq<real>>): (idx: seq<nat>)
    ensures forall k :: 0 <= k < |idx| ==> idx[k] < |ps| && IsPosition(ps[idx[k]])
    ensures forall k, l :: 0 <= k < l < |idx| ==> idx[k] < idx[l]
    ensures forall j :: 0 <= j < |ps| && IsPosition(ps[j]) ==> j in idx
    decreases |ps|
  {
    if |ps| == 0 then []
    else
      var n := |ps| - 1;
      PositionIndices(ps[..n]) + (if IsPosition(ps[n]) then [n] else [])
  }

  /** The positions that become coordinates, swapped from [lon, lat] into
      {latitude, longitude}; shorter entries are dropped and anything after
      the second element is ignored. */
  function ToCoordinates(ps: seq<seq<real>>): (cs: seq<Coordinate>)
    ensures |cs| == |PositionIndices(ps)|
    ensures forall k :: 0 <= k < |cs| ==>
      var p := ps[PositionIndices(ps)[k]];
      cs[k].latitude == p[1] && cs[k].longitude == p[0]
    decreases |ps|
  {
    if |ps| == 0 then []
    else
      var n := |ps| - 1;
      var p := ps[n];
      ToCoordinates(ps[..n])
        + (if |p| >= 2 then [Coordinate(latitude := p[1], longitude := p[0])] else [])
  }

  /** The Route for a reply, or why there is none. */
  function TranslateReply(reply: HttpReply): (r: Result<Route, RouteError>)
    ensures reply.TransportFailure? ==> r == Err(RequestFailed)
    ensures reply.Reply? && reply.status != StatusOK ==> r == Err(BadStatus(reply.status))
    ensures r.Ok? <==>
      && reply.Reply?
      && reply.status == StatusOK
      && reply.body.Decoded?
      && reply.body.response.code == "Ok"
      && |reply.body.response.routes| > 0
    ensures r.Ok? ==>
      var first := reply.body.response.routes[0];
      && r.value.distance == first.distance
      && r.value.duration == first.duration
      && |r.value.geometry| == 1
      && r.value.geometry[0].coordinates == ToCoordinates(first.geometry.coordinates)
  {
    match reply
    case TransportFailure => Err(RequestFailed)
    case Reply(status, body) =>
      if status != StatusOK then Err(BadStatus(status))
      else match body
        case Undecodable => Err(DecodeFailed)
        case Decoded(response) =>
          if response.code != "Ok" || |response.routes| == 0 then Err(NoRouteFound(response.code))
          else
            var first := response.routes[0];
            Ok(Route(
              distance := first.distance,
              duration := first.duration,
              geometry := [Geometry(ToCoordinates(first.geometry.coordinates))]))
  }

  /** A non-200 status fails whatever the body holds. */
  lemma StatusDecidesFirst(status: int, b1: ReplyBody, b2: ReplyBody)
    requires status != StatusOK
    ensures TranslateReply(Reply(status, b1)) == TranslateReply(Reply(status, b2))
    ensures TranslateReply(Reply(status, b1)).Err?
  {
  }

  /** Only the first route counts: routes after it never change the result. */
  lemma OnlyFirstRouteUsed(status: int, code: string, first: ProviderRoute, rest1: seq<ProviderRoute>, rest2: seq<ProviderRoute>)
    ensures TranslateReply(Reply(status, Decoded(ProviderResponse(code, [first] + rest1))))
         == TranslateReply(Reply(status, Decoded(ProviderResponse(code, [first] + rest2))))
  {
  }

  /** A position list made only of short entries yields no coordinates. */
  lemma {:induction false} ShortEntriesDropped(ps: seq<seq<real>>)
    requires forall j :: 0 <= j < |ps| ==> |ps[j]| < 2
    ensures ToCoordinates(ps) == []
    decreases |ps|
  {
    if |ps| > 0 {
      ShortEntriesDropped(ps[..|ps| - 1]);
    }
  }

  /** When every entry is a full position, nothing is dropped and the k-th
      coordinate is the k-th position with its two axes swapped. */
  lemma {:induction false} FullPositionsAllKept(ps: seq<seq<real>>)
    requires forall j :: 0 <= j < |ps| ==> IsPosition(ps[j])
    ensures |ToCoordinates(ps)| == |ps|
    ensures forall k :: 0 <= k < |ps| ==>
      ToCoordinates(ps)[k] == Coordinate(latitude := ps[k][1], longitude := ps[k][0])
    decreases |ps|
  {
    if |ps| > 0 {
      var n := |ps| - 1;
      FullPositionsAllKept(ps[..n]);
      assert PositionIndices(ps) == PositionIndices(ps[..n]) + [n];
    }
  }
}
