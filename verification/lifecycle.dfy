/** Properties of whole runs of the service: any sequence of previews,
    creations and driver-response deliveries, applied one after another to
    the same store, event log and id generator. */
module Lifecycle {
  import opened Wrappers
  import opened TripTypes
  import Fares
  import Routing
  import TripStore
  import opened TripService
  import opened DriverResponses

  /** One request the service handles. */
  datatype Call =
    | PreviewCall(userId: string, pickup: Coordinate, destination: Coordinate,
                  reply: Routing.HttpReply, now: Instant, order: seq<CarPackage>)
    | CreateCall(userId: string, fareId: Id, pickup: Coordinate, destination: Coordinate,
                 createOracle: CreateOracle)
    | DeliverCall(body: Body, responseOracle: ResponseOracle)

  /** The rate table's iteration order in the call visits every package once. */
  predicate Admissible(c: Call) {
    match c
    case PreviewCall(_, _, _, _, _, order) => Fares.EnumeratesRates(order)
    case CreateCall(_, _, _, _, oracle) => Fares.EnumeratesRates(oracle.order)
    case DeliverCall(_, _) => true
  }

  predicate AllAdmissible(calls: seq<Call>) {
    forall i :: 0 <= i < |calls| ==> Admissible(calls[i])
  }

  function Apply(sys: System, c: Call): System
    requires Admissible(c)
  {
    match c
    case PreviewCall(userId, pickup, destination, reply, now, order) =>
      PreviewTrip(sys, userId, pickup, destination, reply, now, order).system
    case CreateCall(userId, fareId, pickup, destination, oracle) =>
      CreateTrip(sys, userId, fareId, pickup, destination, oracle).system
    case DeliverCall(body, oracle) =>
      HandleDelivery(sys, body, oracle).system
  }

  /** The state after handling `calls` in order. */
  function Run(sys: System, calls: seq<Call>): System
    requires AllAdmissible(calls)
    decreases |calls|
  {
    if |calls| == 0 then sys else Run(Apply(sys, calls[0]), calls[1..])
  }

  /** Every stored trip sits under its own id, and that id has been issued. */
  predicate IdsIssued(sys: System) {
    forall id :: id in sys.store ==> sys.store[id].id == id && id.serial < sys.nextSerial
  }

  /** Every stored trip has a status in `allowed`. */
  predicate StatusesWithin(sys: System, allowed: set<TripStatus>) {
    forall id :: id in sys.store ==> sys.store[id].status in allowed
  }

  /** The statuses the service's operations ever write. */
  const WrittenStatuses: set<TripStatus> := {Created, DriverAssigned}

  /** The facts one call keeps: ids only move forward, the event log only
      grows at its end, issued ids stay issued, and no status outside
      created/driver_assigned appears. */
  ghost predicate Keeps(before: System, after: System) {
    && after.nextSerial >= before.nextSerial
    && before.events <= after.events
    && (IdsIssued(before) ==> IdsIssued(after))
    && (StatusesWithin(before, WrittenStatuses) ==> StatusesWithin(after, WrittenStatuses))
  }

  /** Storing a freshly issued, created trip keeps the run invariants. */
  lemma InsertKeeps(sys: System, after: System, trip: Trip)
    requires after.store == sys.store[trip.id := trip]
    requires trip.status == Created
    requires sys.nextSerial <= trip.id.serial < after.nextSerial
    requires sys.events <= after.events
    ensures Keeps(sys, after)
  {
    if IdsIssued(sys) {
      forall id | id in after.store
        ensures after.store[id].id == id && id.serial < after.nextSerial
      {
        if id != trip.id {
          assert after.store[id] == sys.store[id];
        }
      }
    }
  }

  lemma CreateKeeps(
    sys: System, userId: string, fareId: Id, pickup: Coordinate, destination: Coordinate,
    oracle: CreateOracle)
    requires Fares.EnumeratesRates(oracle.order)
    ensures Keeps(sys, CreateTrip(sys, userId, fareId, pickup, destination, oracle).system)
  {
    var r := CreateTrip(sys, userId, fareId, pickup, destination, oracle);
    if r.result.Ok? {
      var trip := r.result.value;
      assert r.system.events == Publish(sys.events, TripEventCreated, trip, oracle.publishFails);
      InsertKeeps(sys, r.system, trip);
    }
  }

  lemma DeliverKeeps(sys: System, body: Body, oracle: ResponseOracle)
    ensures Keeps(sys, HandleDelivery(sys, body, oracle).system)
  {
    var after := HandleDelivery(sys, body, oracle).system;
    if after.store != sys.store {
      var m := body.message;
      assert after.store == sys.store[m.tripId := sys.store[m.tripId].(status := DriverAssigned, updatedAt := oracle.now)];
    }
  }

  lemma ApplyKeeps(sys: System, c: Call)
    requires Admissible(c)
    ensures Keeps(sys, Apply(sys, c))
  {
    match c
    case PreviewCall(_, _, _, _, _, _) =>
    case CreateCall(userId, fareId, pickup, destination, oracle) =>
      CreateKeeps(sys, userId, fareId, pickup, destination, oracle);
    case DeliverCall(body, oracle) =>
      DeliverKeeps(sys, body, oracle);
  }

  /** The same facts for whole runs. */
  lemma {:induction false} RunPreserves(sys: System, calls: seq<Call>)
    requires AllAdmissible(calls)
    ensures Run(sys, calls).nextSerial >= sys.nextSerial
    ensures sys.events <= Run(sys, calls).events
    ensures IdsIssued(sys) ==> IdsIssued(Run(sys, calls))
    ensures StatusesWithin(sys, WrittenStatuses) ==> StatusesWithin(Run(sys, calls), WrittenStatuses)
    decreases |calls|
  {
    if |calls| > 0 {
      ApplyKeeps(sys, calls[0]);
      RunPreserves(Apply(sys, calls[0]), calls[1..]);
    }
  }

  /** Starting from an empty store, no run ever stores a trip whose status
      is pending, driver_found, in_progress, completed or cancelled: those
      statuses are vocabulary only. */
  lemma OnlyCreatedOrAssigned(calls: seq<Call>, nextSerial: nat, id: Id)
    requires AllAdmissible(calls)
    ensures
      var s := Run(System(map[], [], nextSerial), calls);
      id in s.store ==> s.store[id].status == Created || s.store[id].status == DriverAssigned
  {
    RunPreserves(System(map[], [], nextSerial), calls);
  }

  /** The re-quoting gap: a fare id returned by a preview can never be
      selected by any later CreateTrip, however many calls come between.
      The creation fails (with fare-not-found once routing succeeds) and
      neither the store nor the event log changes. */
  lemma PreviewedFareNeverMatches(
    sys: System, userId: string, pickup: Coordinate, destination: Coordinate,
    reply: Routing.HttpReply, now: Instant, order: seq<CarPackage>, i: nat,
    calls: seq<Call>,
    creator: string, from: Coordinate, to: Coordinate, oracle: CreateOracle)
    requires Fares.EnumeratesRates(order) && Fares.EnumeratesRates(oracle.order)
    requires AllAdmissible(calls)
    requires
      var preview := PreviewTrip(sys, userId, pickup, destination, reply, now, order);
      preview.result.Ok? && i < |preview.result.value.fares|
    ensures
      var preview := PreviewTrip(sys, userId, pickup, destination, reply, now, order);
      var fareId := preview.result.value.fares[i].id;
      var later := Run(preview.system, calls);
      var r := CreateTrip(later, creator, fareId, from, to, oracle);
      && r.result.Err?
      && (Routing.TranslateReply(oracle.reply).Ok? ==> r.result == Err(FareNotFound(fareId)))
      && r.system.store == later.store
      && r.system.events == later.events
  {
    var preview := PreviewTrip(sys, userId, pickup, destination, reply, now, order);
    var fareId := preview.result.value.fares[i].id;
    var later := Run(preview.system, calls);
    RunPreserves(preview.system, calls);
    assert fareId.serial < later.nextSerial;
    assert !QuotedBy(later, fareId);
    if Routing.TranslateReply(oracle.reply).Ok? {
      CreateTripUnknownFare(later, creator, fareId, from, to, oracle);
    } else {
      CreateTripRoutingFailure(later, creator, fareId, from, to, oracle);
    }
  }

  /** A created trip's id was never stored before, so the insert cannot hit
      a duplicate key once ids come only from the generator. */
  lemma CreatedIdsAreFresh(
    sys: System, userId: string, fareId: Id, pickup: Coordinate, destination: Coordinate,
    oracle: CreateOracle)
    requires Fares.EnumeratesRates(oracle.order)
    requires IdsIssued(sys)
    ensures
      var r := CreateTrip(sys, userId, fareId, pickup, destination, oracle).result;
      && (r.Ok? ==> r.value.id !in sys.store)
      && (r.Err? && r.error.CreateFailed? ==> r.error.cause == TripStore.Unavailable)
  {
  }
}
