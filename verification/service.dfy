/** The trip orchestrator (services/trip-service/internal/service/service.go):
    preview, creation and driver responses as transformers of the system
    state. The router, the clock, the database's failures and the broker's
    failures are explicit inputs; the uuid generator is the serial counter
    of the state. */
module TripService {
  import opened Wrappers
  import opened TripTypes
  import Fares
  import Routing
  import TripStore

  /** The routing keys the service publishes under. */
  datatype Topic = TripEventCreated | TripEventDriverAssigned {
    function RoutingKey(): string {
      match this
      case TripEventCreated => "trip.event.created"
      case TripEventDriverAssigned => "trip.event.driver_assigned"
    }
  }

  /** A published message: its routing key and the trip it carries. */
  datatype Event = Event(topic: Topic, trip: Trip)

  /** Everything the service's operations can observe or change: the trip
      collection, the log of published events (append-only) and the next
      serial the id generator will hand out. */
  datatype System = System(store: TripStore.Store, events: seq<Event>, nextSerial: nat)

  /** The distinct ways an operation fails. */
  datatype TripError =
    | RouteFailed(routeError: Routing.RouteError)
    | FareNotFound(fareId: Id)
    | FareExpired
    | CreateFailed(cause: TripStore.StoreError)
    | LoadFailed(cause: TripStore.StoreError)
    | TripNotFound(tripId: Id)
    | StatusUpdateFailed(cause: TripStore.StoreError)
    | ReloadFailed(cause: TripStore.StoreError)
    | PublishFailed(topic: Topic)

  /** An operation's effect: the next state and what the caller gets back. */
  datatype Step<T> = Step(system: System, result: Result<T, TripError>)

  /** A preview: the route and one quote per package. */
  datatype Quote = Quote(route: Route, fares: seq<RouteFare>)

  /** What the outside world answers during one CreateTrip call: the
      router's reply, the rate table's iteration order, the three clock
      readings (quoting, expiry check, insert) and whether the insert and
      the publish fail. */
  datatype CreateOracle = CreateOracle(
    reply: Routing.HttpReply,
    order: seq<CarPackage>,
    quotedAt: Instant,
    checkedAt: Instant,
    storedAt: Instant,
    insertFails: bool,
    publishFails: bool)

  /** What the outside world answers during one HandleDriverResponse call:
      the clock reading of the status update and whether each of the four
      external calls fails. */
  datatype ResponseOracle = ResponseOracle(
    now: Instant,
    loadFails: bool,
    updateFails: bool,
    reloadFails: bool,
    publishFails: bool)

  /** Appends `trip` under `topic` unless the broker refuses it; a refused
      message is not delivered. */
  function Publish(events: seq<Event>, topic: Topic, trip: Trip, fails: bool): (r: seq<Event>)
    ensures fails ==> r == events
    ensures !fails ==> |r| == |events| + 1 && r[..|events|] == events && r[|events|] == Event(topic, trip)
  {
    if fails then events else events + [Event(topic, trip)]
  }

  /** Routes, then prices. Nothing is stored and nothing is published; only
      the id generator moves on, by one id per fare. */
  function PreviewTrip(
    sys: System, userId: string, pickup: Coordinate, destination: Coordinate,
    reply: Routing.HttpReply, now: Instant, order: seq<CarPackage>): (r: Step<Quote>)
    requires Fares.EnumeratesRates(order)
    ensures r.system.store == sys.store && r.system.events == sys.events
    ensures r.result.Err? <==> Routing.TranslateReply(reply).Err?
    ensures r.result.Err? ==>
      r.result.error == RouteFailed(Routing.TranslateReply(reply).error) && r.system == sys
    ensures r.result.Ok? ==>
      && r.result.value.route == Routing.TranslateReply(reply).value
      && r.result.value.fares == Fares.CalculateFares(r.result.value.route, now, order, sys.nextSerial)
      && |r.result.value.fares| == PackageCount
      && r.system.nextSerial == sys.nextSerial + PackageCount
      && (forall i :: 0 <= i < |r.result.value.fares| ==>
            && r.result.value.fares[i].id == Id(sys.nextSerial + i)
            && r.result.value.fares[i].route == r.result.value.route
            && r.result.value.fares[i].expiresAt == now + Fares.QuoteWindow)
  {
    match Routing.TranslateReply(reply)
    case Err(e) => Step(sys, Err(RouteFailed(e)))
    case Ok(route) =>
      var fares := Fares.CalculateFares(route, now, order, sys.nextSerial);
      Step(sys.(nextSerial := sys.nextSerial + PackageCount), Ok(Quote(route, fares)))
  }

  /** The first fare with id `fareId`, as the search loop finds it. */
  function FindFare(fares: seq<RouteFare>, fareId: Id): (r: Option<RouteFare>)
    ensures r.None? <==> forall i :: 0 <= i < |fares| ==> fares[i].id != fareId
    ensures r.Some? ==> exists i ::
      && 0 <= i < |fares| && fares[i] == r.value && r.value.id == fareId
      && (forall j :: 0 <= j < i ==> fares[j].id != fareId)
    decreases |fares|
  {
    if |fares| == 0 then None
    else if fares[0].id == fareId then Some(fares[0])
    else FindFare(fares[1..], fareId)
  }

  /** The trip CreateTrip builds from a selected fare, before the store stamps it. */
  function NewTrip(id: Id, userId: string, route: Route, fare: RouteFare): Trip {
    Trip(
      id := id,
      userId := userId,
      status := Created,
      route := route,
      selectedFare := Some(fare),
      driver := None,
      createdAt := ZeroTime,
      updatedAt := ZeroTime)
  }

  /** Re-quotes, selects the fare with id `fareId`, refuses it once expired,
      stores a new trip and then tries once to announce it. A failed
      announcement does not fail the creation. */
  function CreateTrip(
    sys: System, userId: string, fareId: Id, pickup: Coordinate, destination: Coordinate,
    oracle: CreateOracle): (r: Step<Trip>)
    requires Fares.EnumeratesRates(oracle.order)
    ensures r.system.nextSerial >= sys.nextSerial
    ensures r.result.Err? ==> r.system.store == sys.store && r.system.events == sys.events
    ensures r.result.Ok? ==>
      var trip := r.result.value;
      && ((forall id :: id in sys.store ==> id.serial < sys.nextSerial) ==> trip.id !in sys.store)
      && sys.nextSerial <= trip.id.serial < r.system.nextSerial
      && trip.userId == userId
      && trip.status == Created
      && Routing.TranslateReply(oracle.reply) == Ok(trip.route)
      && trip.selectedFare.Some? && trip.selectedFare.value.id == fareId
      && trip.selectedFare == FindFare(Fares.CalculateFares(trip.route, oracle.quotedAt, oracle.order, sys.nextSerial), fareId)
      && oracle.checkedAt <= trip.selectedFare.value.expiresAt
      && trip.selectedFare.value.route == trip.route
      && trip.driver.None?
      && trip.createdAt == trip.updatedAt == oracle.storedAt
      && r.system.store == sys.store[trip.id := trip]
      && r.system.events == Publish(sys.events, TripEventCreated, trip, oracle.publishFails)
  {
    var stored := StoreNewTrip(
      sys, userId, fareId, pickup, destination,
      oracle.reply, oracle.order, oracle.quotedAt, oracle.checkedAt, oracle.storedAt, oracle.insertFails);
    match stored.result
    case Err(_) => stored
    case Ok(trip) =>
      var events := Publish(stored.system.events, TripEventCreated, trip, oracle.publishFails);
      Step(stored.system.(events := events), Ok(trip))
  }

  /** CreateTrip up to and including the insert: re-quote, select, check
      expiry, store. Every input of the call except the publish outcome. */
  function StoreNewTrip(
    sys: System, userId: string, fareId: Id, pickup: Coordinate, destination: Coordinate,
    reply: Routing.HttpReply, order: seq<CarPackage>, quotedAt: Instant, checkedAt: Instant,
    storedAt: Instant, insertFails: bool): (r: Step<Trip>)
    requires Fares.EnumeratesRates(order)
    ensures r.system.nextSerial >= sys.nextSerial
    ensures r.system.events == sys.events
    ensures r.result.Err? ==> r.system.store == sys.store
    ensures r.result.Ok? ==>
      var trip := r.result.value;
      && ((forall id :: id in sys.store ==> id.serial < sys.nextSerial) ==> trip.id !in sys.store)
      && sys.nextSerial <= trip.id.serial < r.system.nextSerial
      && trip.userId == userId
      && trip.status == Created
      && Routing.TranslateReply(reply) == Ok(trip.route)
      && trip.selectedFare.Some? && trip.selectedFare.value.id == fareId
      && trip.selectedFare == FindFare(Fares.CalculateFares(trip.route, quotedAt, order, sys.nextSerial), fareId)
      && checkedAt <= trip.selectedFare.value.expiresAt
      && trip.selectedFare.value.route == trip.route
      && trip.driver.None?
      && trip.createdAt == trip.updatedAt == storedAt
      && r.system.store == sys.store[trip.id := trip]
  {
    var preview := PreviewTrip(sys, userId, pickup, destination, reply, quotedAt, order);
    match preview.result
    case Err(e) => Step(preview.system, Err(e))
    case Ok(quote) =>
      var quoted := preview.system;
      match FindFare(quote.fares, fareId)
      case None => Step(quoted, Err(FareNotFound(fareId)))
      case Some(fare) =>
        if checkedAt > fare.expiresAt then Step(quoted, Err(FareExpired))
        else
          var issued := quoted.(nextSerial := quoted.nextSerial + 1);
          var trip := NewTrip(Id(quoted.nextSerial), userId, quote.route, fare);
          match TripStore.Create(quoted.store, trip, storedAt, insertFails)
          case Err(e) => Step(issued, Err(CreateFailed(e)))
          case Ok(inserted) => Step(issued.(store := inserted.store), Ok(inserted.record))
  }

  /** Applies a driver's answer. An acceptance sets the status to
      driver_assigned whatever it was, reloads the trip and announces it; a
      failed announcement is an error although the status change stays. A
      decline changes nothing. The driver id is not stored. */
  function HandleDriverResponse(
    sys: System, tripId: Id, driverId: string, accepted: bool, oracle: ResponseOracle): (r: Step<()>)
    ensures r.system.nextSerial == sys.nextSerial
    ensures oracle.loadFails ==> r == Step(sys, Err(LoadFailed(TripStore.Unavailable)))
    ensures !oracle.loadFails && tripId !in sys.store ==> r == Step(sys, Err(TripNotFound(tripId)))
    ensures !accepted && !oracle.loadFails && tripId in sys.store ==> r == Step(sys, Ok(()))
    ensures r.system.store != sys.store ==>
      && accepted && tripId in sys.store
      && r.system.store == sys.store[tripId := sys.store[tripId].(status := DriverAssigned, updatedAt := oracle.now)]
    ensures r.system.events != sys.events ==>
      && r.result.Ok? && accepted && tripId in r.system.store
      && r.system.events == sys.events + [Event(TripEventDriverAssigned, r.system.store[tripId])]
    ensures accepted && !oracle.loadFails && tripId in sys.store ==>
      && (r.result.Ok? <==> !oracle.updateFails && !oracle.reloadFails && !oracle.publishFails)
      && (oracle.updateFails ==> r.system.store == sys.store)
      && (!oracle.updateFails ==>
            r.system.store == sys.store[tripId := sys.store[tripId].(status := DriverAssigned, updatedAt := oracle.now)])
  {
    match TripStore.GetByID(sys.store, tripId, oracle.loadFails)
    case Err(e) => Step(sys, Err(LoadFailed(e)))
    case Ok(None) => Step(sys, Err(TripNotFound(tripId)))
    case Ok(Some(_)) =>
      if !accepted then Step(sys, Ok(()))
      else
        match TripStore.UpdateStatus(sys.store, tripId, DriverAssigned, oracle.now, oracle.updateFails)
        case Err(e) => Step(sys, Err(StatusUpdateFailed(e)))
        case Ok(store) =>
          var updated := sys.(store := store);
          match TripStore.GetByID(store, tripId, oracle.reloadFails)
          case Err(e) => Step(updated, Err(ReloadFailed(e)))
          case Ok(None) => assert false; Step(updated, Err(TripNotFound(tripId)))
          case Ok(Some(trip)) =>
            if oracle.publishFails then Step(updated, Err(PublishFailed(TripEventDriverAssigned)))
            else Step(updated.(events := Publish(sys.events, TripEventDriverAssigned, trip, false)), Ok(()))
  }

  /** The fare ids a CreateTrip call on `sys` quotes: the next four serials. */
  predicate QuotedBy(sys: System, fareId: Id) {
    sys.nextSerial <= fareId.serial < sys.nextSerial + PackageCount
  }

  /** A routing failure ends CreateTrip before any fare is looked at. */
  lemma CreateTripRoutingFailure(
    sys: System, userId: string, fareId: Id, pickup: Coordinate, destination: Coordinate,
    oracle: CreateOracle)
    requires Fares.EnumeratesRates(oracle.order)
    requires Routing.TranslateReply(oracle.reply).Err?
    ensures CreateTrip(sys, userId, fareId, pickup, destination, oracle)
      == Step(sys, Err(RouteFailed(Routing.TranslateReply(oracle.reply).error)))
  {
  }

  /** A fare id the re-quote did not issue is never found. */
  lemma CreateTripUnknownFare(
    sys: System, userId: string, fareId: Id, pickup: Coordinate, destination: Coordinate,
    oracle: CreateOracle)
    requires Fares.EnumeratesRates(oracle.order)
    requires Routing.TranslateReply(oracle.reply).Ok?
    requires !QuotedBy(sys, fareId)
    ensures
      var r := CreateTrip(sys, userId, fareId, pickup, destination, oracle);
      && r.result == Err(FareNotFound(fareId))
      && r.system.store == sys.store
      && r.system.events == sys.events
  {
    var preview := PreviewTrip(sys, userId, pickup, destination, oracle.reply, oracle.quotedAt, oracle.order);
    var fares := preview.result.value.fares;
    assert forall i :: 0 <= i < |fares| ==> fares[i].id != fareId;
  }

  /** For a fare id the re-quote did issue, the fare is expired exactly when
      the check time is strictly after quote time plus five minutes; a live
      fare leads to a stored trip unless the insert fails. */
  lemma CreateTripQuotedFare(
    sys: System, userId: string, fareId: Id, pickup: Coordinate, destination: Coordinate,
    oracle: CreateOracle)
    requires Fares.EnumeratesRates(oracle.order)
    requires forall id :: id in sys.store ==> id.serial < sys.nextSerial
    requires Routing.TranslateReply(oracle.reply).Ok?
    requires QuotedBy(sys, fareId)
    ensures
      var r := CreateTrip(sys, userId, fareId, pickup, destination, oracle).result;
      && (r == Err(FareExpired) <==> oracle.checkedAt > oracle.quotedAt + Fares.QuoteWindow)
      && (r.Ok? <==> oracle.checkedAt <= oracle.quotedAt + Fares.QuoteWindow && !oracle.insertFails)
  {
    var preview := PreviewTrip(sys, userId, pickup, destination, oracle.reply, oracle.quotedAt, oracle.order);
    var fares := preview.result.value.fares;
    var i := fareId.serial - sys.nextSerial;
    assert fares[i].id == fareId;
    var fare := FindFare(fares, fareId).value;
    assert fare.expiresAt == oracle.quotedAt + Fares.QuoteWindow;
    assert Id(sys.nextSerial + PackageCount) !in sys.store;
  }

  /** A failed trip.event.created publish is swallowed: the caller gets the
      same answer and the store the same trip; only the event is missing. */
  lemma CreatePublishFailureSwallowed(
    sys: System, userId: string, fareId: Id, pickup: Coordinate, destination: Coordinate,
    oracle: CreateOracle)
    requires Fares.EnumeratesRates(oracle.order)
    ensures
      var sent := CreateTrip(sys, userId, fareId, pickup, destination, oracle.(publishFails := false));
      var lost := CreateTrip(sys, userId, fareId, pickup, destination, oracle.(publishFails := true));
      && lost.result == sent.result
      && lost.system.store == sent.system.store
      && lost.system.events == sys.events
      && (sent.result.Ok? ==> sent.system.events == sys.events + [Event(TripEventCreated, sent.result.value)])
  {
  }

  /** An accepted response on an existing trip, with every external call
      succeeding: the status becomes driver_assigned whatever it was, the
      driver field is untouched, and exactly one driver-assigned event
      carrying the reloaded trip is appended. */
  lemma AcceptAssigns(sys: System, tripId: Id, driverId: string, now: Instant)
    requires tripId in sys.store
    ensures
      var r := HandleDriverResponse(sys, tripId, driverId, true, ResponseOracle(now, false, false, false, false));
      var before := sys.store[tripId];
      && r.result == Ok(())
      && tripId in r.system.store
      && r.system.store[tripId].status == DriverAssigned
      && r.system.store[tripId].driver == before.driver
      && r.system.store[tripId].updatedAt == now
      && r.system.events == sys.events + [Event(TripEventDriverAssigned, r.system.store[tripId])]
  {
  }

  /** The driver-assigned publish is mandatory: when it fails the caller
      gets an error, yet the status change is already stored. */
  lemma AcceptPublishFailurePropagated(sys: System, tripId: Id, driverId: string, now: Instant)
    requires tripId in sys.store
    ensures
      var r := HandleDriverResponse(sys, tripId, driverId, true, ResponseOracle(now, false, false, false, true));
      && r.result == Err(PublishFailed(TripEventDriverAssigned))
      && r.system.events == sys.events
      && r.system.store[tripId].status == DriverAssigned
  {
  }

  /** The two publish policies differ: a publish failure never surfaces from
      CreateTrip but always surfaces from an accepted driver response. */
  lemma PublishPoliciesDiffer(
    sys: System, userId: string, fareId: Id, pickup: Coordinate, destination: Coordinate,
    create: CreateOracle, tripId: Id, driverId: string, respond: ResponseOracle)
    requires Fares.EnumeratesRates(create.order)
    requires tripId in sys.store
    requires create.publishFails && respond.publishFails
    requires !respond.loadFails && !respond.updateFails && !respond.reloadFails
    ensures
      var created := CreateTrip(sys, userId, fareId, pickup, destination, create).result;
      created.Err? ==> !created.error.PublishFailed?
    ensures HandleDriverResponse(sys, tripId, driverId, true, respond).result == Err(PublishFailed(TripEventDriverAssigned))
  {
  }
}
