/** The trip store: the document collection of trips, as a map keyed by trip
    id (services/trip-service/internal/infrastructure/repository/mongo.go).
    Every database call may fail for reasons outside the model (network,
    server); the `fails` input says whether this call did. */
module TripStore {
  import opened Wrappers
  import opened TripTypes

  type Store = map<Id, Trip>

  datatype StoreError =
    | Unavailable
    | DuplicateKey(id: Id)

  /** A successful insert: the new collection and the record as written. */
  datatype Inserted = Inserted(store: Store, record: Trip)

  /** Inserts `trip` under its id with both timestamps set to `now`. The
      collection's primary key refuses a second record with the same id. */
  function Create(store: Store, trip: Trip, now: Instant, fails: bool): (r: Result<Inserted, StoreError>)
    ensures r.Ok? <==> !fails && trip.id !in store
    ensures !fails && trip.id in store ==> r == Err(DuplicateKey(trip.id))
    ensures r.Ok? ==>
      && r.value.record == trip.(createdAt := now, updatedAt := now)
      && r.value.store.Keys == store.Keys + {trip.id}
      && r.value.store[trip.id] == r.value.record
      && (forall id :: id in store ==> r.value.store[id] == store[id])
  {
    if fails then Err(Unavailable)
    else if trip.id in store then Err(DuplicateKey(trip.id))
    else
      var record := trip.(createdAt := now, updatedAt := now);
      Ok(Inserted(store[trip.id := record], record))
  }

  /** Looks a trip up. A missing id is not an error: the answer is `None`. */
  function GetByID(store: Store, id: Id, fails: bool): (r: Result<Option<Trip>, StoreError>)
    ensures r == Ok(None) <==> !fails && id !in store
    ensures r.Ok? && r.value.Some? <==> !fails && id in store
    ensures r.Ok? && r.value.Some? ==> r.value.value == store[id]
  {
    if fails then Err(Unavailable)
    else if id in store then Ok(Some(store[id]))
    else Ok(None)
  }

  /** The stored record after `$set` with `trip`'s fields. Optional fields
      that are nil are omitted from the update document, so they keep their
      stored value. */
  function SetFields(stored: Trip, trip: Trip): (t: Trip)
    ensures t.id == trip.id && t.userId == trip.userId && t.status == trip.status
    ensures t.route == trip.route && t.createdAt == trip.createdAt && t.updatedAt == trip.updatedAt
    ensures t.selectedFare == (if trip.selectedFare.Some? then trip.selectedFare else stored.selectedFare)
    ensures t.driver == (if trip.driver.Some? then trip.driver else stored.driver)
  {
    trip.(
      selectedFare := if trip.selectedFare.None? then stored.selectedFare else trip.selectedFare,
      driver := if trip.driver.None? then stored.driver else trip.driver)
  }

  /** Replaces the fields of the record with `trip`'s id, stamping
      `updatedAt`. There is no upsert: a missing id changes nothing and is
      not an error. */
  function Update(store: Store, trip: Trip, now: Instant, fails: bool): (r: Result<Store, StoreError>)
    ensures r.Ok? <==> !fails
    ensures r.Ok? ==> r.value.Keys == store.Keys
    ensures r.Ok? ==> forall id :: id in store && id != trip.id ==> r.value[id] == store[id]
    ensures r.Ok? && trip.id in store ==>
      r.value[trip.id] == SetFields(store[trip.id], trip.(updatedAt := now))
  {
    if fails then Err(Unavailable)
    else if trip.id !in store then Ok(store)
    else Ok(store[trip.id := SetFields(store[trip.id], trip.(updatedAt := now))])
  }

  /** Sets the status of the record with id `id` and stamps `updatedAt`;
      every other field and every other record stays as it was. A missing
      id changes nothing and is not an error. */
  function UpdateStatus(store: Store, id: Id, status: TripStatus, now: Instant, fails: bool): (r: Result<Store, StoreError>)
    ensures r.Ok? <==> !fails
    ensures r.Ok? ==> r.value.Keys == store.Keys
    ensures r.Ok? ==> forall other :: other in store && other != id ==> r.value[other] == store[other]
    ensures r.Ok? && id in store ==>
      var before, after := store[id], r.value[id];
      && after.status == status
      && after.updatedAt == now
      && after.(status := before.status, updatedAt := before.updatedAt) == before
  {
    if fails then Err(Unavailable)
    else if id !in store then Ok(store)
    else Ok(store[id := store[id].(status := status, updatedAt := now)])
  }

  /** Reading right after creating observes the record with both stamps set. */
  lemma ReadAfterCreate(store: Store, trip: Trip, now: Instant)
    requires trip.id !in store
    ensures Create(store, trip, now, false).Ok?
    ensures GetByID(Create(store, trip, now, false).value.store, trip.id, false)
      == Ok(Some(trip.(createdAt := now, updatedAt := now)))
  {
  }

  /** Reading right after a status update on an existing id observes the new status. */
  lemma ReadAfterUpdateStatus(store: Store, id: Id, status: TripStatus, now: Instant)
    requires id in store
    ensures UpdateStatus(store, id, status, now, false).Ok?
    ensures
      var read := GetByID(UpdateStatus(store, id, status, now, false).value, id, false);
      read.Ok? && read.value.Some? && read.value.value.status == status
  {
  }

  /** Reading right after an update of an existing id observes every field
      the update carried; an optional field the update left nil reads back
      as it was stored before. */
  lemma ReadAfterUpdate(store: Store, trip: Trip, now: Instant)
    requires trip.id in store
    ensures
      var read := GetByID(Update(store, trip, now, false).value, trip.id, false);
      && read.Ok? && read.value.Some?
      && read.value.value.(selectedFare := trip.selectedFare, driver := trip.driver)
         == trip.(updatedAt := now)
      && read.value.value.selectedFare
         == (if trip.selectedFare.Some? then trip.selectedFare else store[trip.id].selectedFare)
      && read.value.value.driver
         == (if trip.driver.Some? then trip.driver else store[trip.id].driver)
  {
  }

  /** An update never creates a record. */
  lemma UpdateDoesNotUpsert(store: Store, trip: Trip, now: Instant, fails: bool)
    requires trip.id !in store
    ensures Update(store, trip, now, fails).Ok? ==> Update(store, trip, now, fails).value == store
    ensures GetByID(Update(store, trip, now, false).value, trip.id, false) == Ok(None)
  {
  }
}
