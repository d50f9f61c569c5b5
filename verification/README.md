# Trip service decision logic, modelled in Dafny

This project models the decision logic of the ride-sharing trip service.

- **Fare engine.** A route's distance becomes four priced quotes, one per car package.
- **Route translation.** The routing provider's reply becomes a `Route`. GeoJSON `[lon, lat]` positions (RFC 7946, section 3.1.1) become `{latitude, longitude}` coordinates.
- **Trip orchestrator.** It implements preview, creation and driver responses.
- **Trip store.** The document collection of trips, modelled as a map keyed by trip id.
- **Driver-response consumer.** It chooses an ack/nack disposition for each delivered message.
- **Vocabulary.** The enums and records the other parts share.

The orchestrator is a pure state transformer over a `System` with three parts:

- a map-backed trip store;
- an append-only log of published events;
- the next serial of the id generator.

Everything outside the service becomes an explicit input:

- the routing provider's reply, already decoded;
- each clock reading, as an integer count of nanoseconds;
- the iteration order of the rate-table map;
- whether each database call or publish fails.

The uuid generator is a serial counter in the state, so every issued id is fresh by construction. Trip ids and fare ids share that one generator, as they do in the source.

Files, one module each:

- `wrappers.dfy`: `Option` and `Result`.
- `types.dfy`: `TripStatus`, `CarPackage`, `Coordinate`, `Geometry`, `Route`, `RouteFare`, `Driver` and `Trip`. `SelectedFare` and `Driver` are `Option`s on `Trip`. Every `RouteFare` carries its `Route`. `Coordinate` is a bare pair of reals with no range constraint.
- `fares.dfy`: the rate table and `CalculateFares`.
- `routing.dfy`: the response side of `GetRoute`.
- `store.dfy`: `Create`, `GetByID`, `Update` and `UpdateStatus` over a map.
- `service.dfy`: `PreviewTrip`, `CreateTrip` and `HandleDriverResponse`.
- `consumer.dfy`: `handleDriverResponse` of the event consumer.
- `lifecycle.dfy`: properties of arbitrary sequences of calls.

Two behaviours of the code are worth stating precisely. The model follows the code in both.

- `totalPriceInCents` is produced by Go's `int64(...)` conversion of `basePrice * 100` (fare_calculator.go:43-44). That conversion truncates toward zero; it does not round. `Fares.CentsAreTruncated` shows an input where truncation and rounding differ.
- Once the request has been sent (client.go:70-88), `GetRoute` fails in four distinct ways before a route exists: transport failure, non-200 status, undecodable body, and a code other than `"Ok"` or an empty route list. `Routing.RouteError` keeps all four. The fifth error return, a request that cannot be built (client.go:59-62), is listed under "## Left out".

## Model

| member | source | states |
|---|---|---|
| TripTypes.StatusVocabulary | services/trip-service/pkg/types/trip.go:8-16 | The trip status vocabulary is closed at seven values. Their seven codes are pairwise distinct. |
| TripTypes.StatusCodeReadsBack | services/trip-service/pkg/types/trip.go:8-16 | Parsing a status's stored code yields that status. |
| TripTypes.ParseStatus | services/trip-service/pkg/types/trip.go:8-16 | Any string that parses as a status is that status's code. |
| TripTypes.PackageVocabulary | services/trip-service/pkg/types/trip.go:21-26 | There are exactly four car packages (sedan, suv, van, luxury), with four distinct slugs. |
| TripTypes.PackageSlugReadsBack | services/trip-service/pkg/types/trip.go:21-26 | Parsing a package's slug yields that package. |
| TripTypes.ParseCarPackage | services/trip-service/pkg/types/trip.go:21-26 | Any string that parses as a package is that package's slug. |
| Fares.TruncateTowardZero | services/trip-service/internal/infrastructure/osrm/fare_calculator.go:44 | The float-to-int64 conversion drops the fraction. The result is within one unit of the input, on the zero side. |
| Fares.RatePerKm | services/trip-service/internal/infrastructure/osrm/fare_calculator.go:20-25 | The rate table: every package has a rate between 2.50 and 5.00 per km; sedan is the only package at 2.50 and luxury the only one at 5.00. |
| Fares.PriceOne | services/trip-service/internal/infrastructure/osrm/fare_calculator.go:38-53 | One quote has base price = rate × km + 2.00 and cents = truncate(base × 100). It carries the given id and expiry and the unchanged input route. |
| Fares.PriceAll | services/trip-service/internal/infrastructure/osrm/fare_calculator.go:37-56 | The loop emits one quote per iterated package, in iteration order. The i-th quote gets the i-th id drawn from the generator. |
| Fares.CalculateFares | services/trip-service/internal/infrastructure/osrm/fare_calculator.go:30-59 | It returns exactly four fares, one per rate-table key, with pairwise-distinct slugs and pairwise-distinct fresh ids. All fares share expiry now + 5 min and carry the input route. The prices follow the rate table. There is no error result. |
| Fares.EnumerationCoversPackages | services/trip-service/internal/infrastructure/osrm/fare_calculator.go:20-37 | Any iteration order of the four-key rate table visits every package. |
| Fares.ZeroDistanceCostsFlatFee | services/trip-service/internal/infrastructure/osrm/fare_calculator.go:32-44 | A zero-distance route prices every package at 2.00, which is 200 cents. |
| Fares.PackagesPriceInOrder | services/trip-service/internal/infrastructure/osrm/fare_calculator.go:20-41 | For a non-negative distance, the base prices order sedan ≤ suv ≤ van ≤ luxury. |
| Fares.PriceMonotoneInDistance | services/trip-service/internal/infrastructure/osrm/fare_calculator.go:37-44 | Each package's base price and its cents are non-decreasing in distance. |
| Fares.FiveKilometreSedan | services/trip-service/internal/infrastructure/osrm/fare_calculator.go:38-44 | A 5000 m sedan fare is 14.50, which is 1450 cents. |
| Fares.CentsAreTruncated | services/trip-service/internal/infrastructure/osrm/fare_calculator.go:44 | Cents are truncated, not rounded: a 3 m sedan fare (2.0075) is 200 cents, where rounding gives 201. |
| Routing.PositionIndices | services/trip-service/internal/infrastructure/osrm/client.go:94-95 | It lists, strictly increasing, exactly the indices of entries with at least two elements. |
| Routing.ToCoordinates | services/trip-service/internal/infrastructure/osrm/client.go:93-101 | The output has one coordinate per kept entry, in input order. The k-th coordinate is {latitude: p[1], longitude: p[0]} of the k-th kept entry p. |
| Routing.ShortEntriesDropped | services/trip-service/internal/infrastructure/osrm/client.go:95-100 | Entries with fewer than two elements yield nothing. |
| Routing.FullPositionsAllKept | services/trip-service/internal/infrastructure/osrm/client.go:93-101 | When every entry has at least two elements, none is dropped, and the k-th coordinate swaps the k-th entry's axes. |
| Routing.TranslateReply | services/trip-service/internal/infrastructure/osrm/client.go:76-111 | A transport failure is an error, and so is any non-200 status. A reply succeeds exactly when it has status 200, a decodable body, code "Ok" and a route. The first route's distance and duration are copied unchanged, and the result has exactly one geometry segment. |
| Routing.StatusDecidesFirst | services/trip-service/internal/infrastructure/osrm/client.go:76-79 | A non-200 status yields the same error whatever the body holds. |
| Routing.OnlyFirstRouteUsed | services/trip-service/internal/infrastructure/osrm/client.go:90 | Routes after the first never change the result. |
| TripStore.Create | services/trip-service/internal/infrastructure/repository/mongo.go:44-51 | An insert sets CreatedAt = UpdatedAt = now and stores the trip under its id. It succeeds exactly when the call does not fail and the id is new; a reused id is a duplicate-key error. |
| TripStore.GetByID | services/trip-service/internal/infrastructure/repository/mongo.go:54-64 | A missing id gives "absent" with no error. A present id gives the stored record. |
| TripStore.SetFields | services/trip-service/internal/infrastructure/repository/mongo.go:70-71 | `$set` with the whole trip writes every field, except that a nil selected fare or driver is omitted (the `omitempty` tags of trip.go:34-35) and keeps the stored value. |
| TripStore.Update | services/trip-service/internal/infrastructure/repository/mongo.go:67-76 | It sets UpdatedAt and replaces the record's fields, with no upsert: the key set never changes and other records stay as they were. |
| TripStore.UpdateStatus | services/trip-service/internal/infrastructure/repository/mongo.go:79-90 | It changes only status and updated_at of the record with that id. Other records and the key set stay as they were. |
| TripStore.ReadAfterCreate | services/trip-service/internal/infrastructure/repository/mongo.go:44-64 | Reading right after an insert returns the stamped record. |
| TripStore.ReadAfterUpdateStatus | services/trip-service/internal/infrastructure/repository/mongo.go:54-90 | Reading right after UpdateStatus(id, s) on an existing id observes status s. |
| TripStore.ReadAfterUpdate | services/trip-service/internal/infrastructure/repository/mongo.go:54-76 | Reading right after Update observes every field the update carried. An optional field (selected fare, driver) the update left nil reads back as it was stored before, since `$set` omits empty fields. |
| TripStore.UpdateDoesNotUpsert | services/trip-service/internal/infrastructure/repository/mongo.go:67-76 | An update of a missing id creates nothing. |
| TripService.PreviewTrip | services/trip-service/internal/service/service.go:37-51 | Preview neither writes the store nor appends events. A routing error short-circuits before pricing. On success it returns the translated route and exactly the fares CalculateFares quotes for that route at `now`, whose ids are the next four serials. |
| TripService.Publish | services/trip-service/internal/service/service.go:93-97 | A publish either delivers exactly one message, (topic, trip), after the earlier ones, or, when the broker refuses it, delivers nothing. |
| TripService.FindFare | services/trip-service/internal/service/service.go:62-68 | The search finds nothing exactly when no fare has the id. Otherwise it returns the first listed fare with that id, as the loop's `break` does. |
| TripService.CreateTrip | services/trip-service/internal/service/service.go:54-100 | Any error leaves store and log unchanged. A success returns a trip with: an id not yet stored (when every stored id was issued), the caller's user id, status created, the re-quoted route, as selected fare exactly the first re-quoted fare with id fareID, which had not expired at the check time, no driver, and equal stamps. The trip is then stored, and the created event is appended unless the publish failed. |
| TripService.StoreNewTrip | services/trip-service/internal/service/service.go:54-91 | CreateTrip up to the insert never touches the event log. An error leaves the store unchanged. A success stores, under a newly issued id, a created trip for the caller with the re-quoted route, the first re-quoted fare with id fareID (not expired at the check time) as selected fare, no driver, and both stamps set to the insert time. |
| TripService.CreateTripRoutingFailure | services/trip-service/internal/service/service.go:56-59 | A routing failure returns that error unchanged, and nothing else happens. |
| TripService.CreateTripUnknownFare | services/trip-service/internal/service/service.go:61-72 | A fare id the re-quote did not issue fails with fare-not-found, and store and log are unchanged. |
| TripService.CreateTripQuotedFare | services/trip-service/internal/service/service.go:74-91 | A fare is expired exactly when the check time is strictly after its expiry. A live fare gives a trip exactly when the insert succeeds. |
| TripService.CreatePublishFailureSwallowed | services/trip-service/internal/service/service.go:93-99 | A failed trip.event.created publish changes neither the result nor the store. Only the event is missing. |
| TripService.HandleDriverResponse | services/trip-service/internal/service/service.go:103-137 | A load failure or a missing trip is an error, with no write and no event. A decline changes nothing and succeeds. Only an acceptance writes, and it sets the status to driver_assigned and stamps the record. For an accepted response on a loadable trip, the call succeeds exactly when the status update, the reload and the publish all succeed, and the write is stored exactly when the status update succeeds. An event is appended only on success: one driver-assigned event carrying the reloaded trip. |
| TripService.AcceptAssigns | services/trip-service/internal/service/service.go:114-129 | Acceptance sets driver_assigned whatever the prior status was. Driver is untouched. Exactly one event with the reloaded trip is appended. |
| TripService.AcceptPublishFailurePropagated | services/trip-service/internal/service/service.go:114-129 | A failed driver-assigned publish is returned as an error, but the status change persists. |
| TripService.PublishPoliciesDiffer | services/trip-service/internal/service/service.go:93-129 | A publish failure never surfaces from CreateTrip. It always surfaces from an accepted response. |
| DriverResponses.HandleDelivery | services/trip-service/internal/infrastructure/events/consumer.go:120-138 | Each message gets exactly one disposition. An unparsable body is discarded without calling the orchestrator. An orchestrator error requeues and success acks. The ids and the flag are passed unchanged. |
| DriverResponses.DiscardOnlyUnparsable | services/trip-service/internal/infrastructure/events/consumer.go:121-126 | A message is discarded exactly when its body does not parse. |
| DriverResponses.RiderIdIgnored | services/trip-service/internal/infrastructure/events/consumer.go:113-131 | riderID plays no part in the handling. |
| DriverResponses.MissingTripRequeued | services/trip-service/internal/infrastructure/events/consumer.go:131-135 | A response for a nonexistent trip is requeued, not discarded, and changes nothing. |
| DriverResponses.DeclineAcknowledged | services/trip-service/internal/infrastructure/events/consumer.go:131-137 | A decline of an existing trip is acked and changes nothing. |
| Lifecycle.ApplyKeeps | services/trip-service/internal/service/service.go:37-137 | Any single call never moves the id generator back and only appends to the event log. Issued ids stay issued, and no status other than created or driver_assigned appears. |
| Lifecycle.RunPreserves | services/trip-service/internal/service/service.go:37-137 | Every sequence of calls keeps the same facts. |
| Lifecycle.OnlyCreatedOrAssigned | services/trip-service/pkg/types/trip.go:9-15 | From an empty store, no run ever stores pending, driver_found, in_progress, completed or cancelled. |
| Lifecycle.PreviewedFareNeverMatches | services/trip-service/internal/service/service.go:56-72 | A fare id returned by any earlier preview never matches a later re-quote, after any calls in between. CreateTrip with it fails, with fare-not-found when routing succeeds, and store and log are unchanged. |
| Lifecycle.CreatedIdsAreFresh | services/trip-service/internal/service/service.go:80-91 | A created trip's id was never stored before. The insert never fails with a duplicate key. |

## Left out

- HTTP request building for the router is not modelled: URL formatting with `%f`, the query string and the round trip (client.go:52-74). This includes the "failed to create request" error (client.go:59-62), which Go returns only for a malformed method or URL; the model has no such error. The model starts from the reply: a transport failure, or a status plus a body that either decodes or does not.
- JSON decoding is not modelled, for both the router's reply and the driver-response message. Decoding either succeeds with a value or fails, and that is the input.
- IEEE-754 effects are not modelled. Prices are exact reals with explicit truncation, so a product that lands at x.9999 in floating point does not lose a cent here.
- Fare cents are an unbounded integer. Go's conversion of an out-of-range float to int64 is implementation-defined and is not modelled. It only matters for distances above about 1.8e16 km.
- The "failed to calculate fares" branch of PreviewTrip (service.go:45-48) cannot be taken, because CalculateFares always returns a nil error. The model has no such branch.
- Randomness is not modelled: `uuid.New()` is a serial counter, so generated ids are distinct by construction. `time.Now()` is an explicit input, one per call site.
- Pointer aliasing and nil pointers are not modelled. Routes, fares and trips are values, and a nil `Route` or nil slice element does not occur.
- Publishing is reduced to appending (topic, trip) to the event log, or failing with no append. Marshalling, the exchange and the AMQP call in publisher.go are not modelled. `PublishNoDriversFound` is never called by the core and is not modelled.
- The Mongo driver is not modelled. A failing call is a boolean input per call, and index creation (mongo.go:24-36) is left out.
- The consumer's exchange and queue declarations, bindings and goroutine loop (consumer.go:22-110) are not modelled. Neither is broker redelivery after a requeue. The model covers one delivery and the disposition chosen for it.
- Logging is not modelled: the decline log line, the swallowed-publish warning and the consumer's log lines.
- Timestamp precision is not modelled. An `Instant` is an exact integer, and the store keeps it unchanged. Mongo's BSON dates keep only milliseconds and are decoded in UTC. So in Go, a trip read back after `Create`, `Update` or `UpdateStatus` has its stamps truncated to the millisecond. For the same reason, the trip in `trip.event.created` (service.go:94) can differ in its stamps' sub-millisecond digits from the same trip reloaded later. `TripStore.ReadAfterCreate`, `CreateTrip`'s store clause and `AcceptAssigns` equate these stamps exactly.
- Concurrency is not modelled. The read-then-write race between an accept and a decline for the same trip cannot occur because the model is sequential. For the same reason, the reload after the status update always finds the trip.
- The API gateway (services/api-gateway/main.go) is mock HTTP plumbing and is not part of this model. The interface declarations in domain/trip.go appear only as the shape of the inputs.
