/** The driver-response consumer's handling of one delivery
    (services/trip-service/internal/infrastructure/events/consumer.go,
    handleDriverResponse). Queue setup and the receive loop are not
    modelled: the input is one message body as delivered. */
module DriverResponses {
  import opened TripTypes
  import TripService

  /** The JSON payload a driver-side service sends. */
  datatype DriverResponseMessage = DriverResponseMessage(
    tripId: Id,
    riderId: string,
    driverId: string,
    accepted: bool)

  /** A body either parses into a message or it does not. */
  datatype Body = Unparsable | Parsed(message: DriverResponseMessage)

  /** What the handler tells the broker, exactly once per delivery. */
  datatype Disposition =
    | Discard  // Nack without requeue: the message is dropped
    | Requeue  // Nack with requeue: the broker delivers it again
    | Ack

  datatype Handled = Handled(system: TripService.System, disposition: Disposition)

  /** Parses, hands the response to the orchestrator and settles the
      delivery: an unparsable body is discarded without calling the
      orchestrator, an orchestrator error requeues, success acknowledges. */
  function HandleDelivery(sys: TripService.System, body: Body, oracle: TripService.ResponseOracle): (h: Handled)
    ensures body.Unparsable? ==> h == Handled(sys, Discard)
    ensures body.Parsed? ==>
      var m := body.message;
      var step := TripService.HandleDriverResponse(sys, m.tripId, m.driverId, m.accepted, oracle);
      && h.system == step.system
      && (h.disposition == Requeue <==> step.result.Err?)
      && (h.disposition == Ack <==> step.result.Ok?)
  {
    match body
    case Unparsable => Handled(sys, Discard)
    case Parsed(m) =>
      var step := TripService.HandleDriverResponse(sys, m.tripId, m.driverId, m.accepted, oracle);
      if step.result.Err? then Handled(step.system, Requeue) else Handled(step.system, Ack)
  }

  /** Discarding happens exactly for unparsable bodies. */
  lemma DiscardOnlyUnparsable(sys: TripService.System, body: Body, oracle: TripService.ResponseOracle)
    ensures HandleDelivery(sys, body, oracle).disposition == Discard <==> body.Unparsable?
  {
  }

  /** The rider id plays no part: two messages that differ only in it are
      handled identically. */
  lemma RiderIdIgnored(sys: TripService.System, m: DriverResponseMessage, riderId: string, oracle: TripService.ResponseOracle)
    ensures HandleDelivery(sys, Parsed(m), oracle) == HandleDelivery(sys, Parsed(m.(riderId := riderId)), oracle)
  {
  }

  /** A response for a trip that does not exist is requeued, not discarded,
      and changes nothing. */
  lemma MissingTripRequeued(sys: TripService.System, m: DriverResponseMessage, oracle: TripService.ResponseOracle)
    requires m.tripId !in sys.store
    ensures HandleDelivery(sys, Parsed(m), oracle) == Handled(sys, Requeue)
  {
  }

  /** A decline of an existing trip, read successfully, is acknowledged and changes nothing. */
  lemma DeclineAcknowledged(sys: TripService.System, m: DriverResponseMessage, oracle: TripService.ResponseOracle)
    requires !m.accepted && m.tripId in sys.store && !oracle.loadFails
    ensures HandleDelivery(sys, Parsed(m), oracle) == Handled(sys, Ack)
  {
  }
}
