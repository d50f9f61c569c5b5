/** The trip-service vocabulary: status and package enums and the records the
    service stores, prices and publishes (services/trip-service/pkg/types/trip.go). */
module TripTypes {
  import opened Wrappers

  /** Opaque unique token. Every id the service issues comes from one
      generator, modelled as a serial counter (see TripService.System). */
  datatype Id = Id(serial: nat)

  /** A clock reading in nanoseconds, the unit of Go's time.Duration. The
      store keeps it exactly; the millisecond truncation of a BSON date is not
      modelled. */
  type Instant = int

  const Minute: int := 60_000_000_000

  /** The closed set of trip states. */
  datatype TripStatus =
    | Pending
    | Created
    | DriverFound
    | DriverAssigned
    | InProgress
    | Completed
    | Cancelled
  {
    /** The string stored in the record's `status` field. */
    function Code(): string {
      match this
      case Pending => "pending"
      case Created => "created"
      case DriverFound => "driver_found"
      case DriverAssigned => "driver_assigned"
      case InProgress => "in_progress"
      case Completed => "completed"
      case Cancelled => "cancelled"
    }
  }

  /** Reads a stored `status` string back; any other string is not a status. */
  function ParseStatus(code: string): (r: Option<TripStatus>)
    ensures r.Some? ==> r.value.Code() == code
  {
    if code == "pending" then Some(Pending)
    else if code == "created" then Some(Created)
    else if code == "driver_found" then Some(DriverFound)
    else if code == "driver_assigned" then Some(DriverAssigned)
    else if code == "in_progress" then Some(InProgress)
    else if code == "completed" then Some(Completed)
    else if code == "cancelled" then Some(Cancelled)
    else None
  }

  const AllStatuses: set<TripStatus> :=
    {Pending, Created, DriverFound, DriverAssigned, InProgress, Completed, Cancelled}

  /** Reading a status's code back yields that status. */
  lemma StatusCodeReadsBack(s: TripStatus)
    ensures ParseStatus(s.Code()) == Some(s)
  {
    match s
    case Pending =>
    case Created =>
    case DriverFound =>
    case DriverAssigned =>
    case InProgress =>
    case Completed =>
    case Cancelled =>
  }

  /** The status vocabulary is closed at seven values with seven distinct codes. */
  lemma StatusVocabulary()
    ensures forall s: TripStatus :: s in AllStatuses
    ensures |AllStatuses| == 7
    ensures forall s: TripStatus, t: TripStatus :: s.Code() == t.Code() ==> s == t
  {
    forall s: TripStatus
      ensures s in AllStatuses
    {
      match s
      case Pending =>
      case Created =>
      case DriverFound =>
      case DriverAssigned =>
      case InProgress =>
      case Completed =>
      case Cancelled =>
    }
    forall s: TripStatus, t: TripStatus | s.Code() == t.Code()
      ensures s == t
    {
      StatusCodeReadsBack(s);
      StatusCodeReadsBack(t);
    }
  }

  /** The vehicle classes a rider can choose between. */
  datatype CarPackage = Sedan | Suv | Van | Luxury {
    /** The package slug carried by a fare. */
    function Slug(): string {
      match this
      case Sedan => "sedan"
      case Suv => "suv"
      case Van => "van"
      case Luxury => "luxury"
    }
  }

  function ParseCarPackage(slug: string): (r: Option<CarPackage>)
    ensures r.Some? ==> r.value.Slug() == slug
  {
    if slug == "sedan" then Some(Sedan)
    else if slug == "suv" then Some(Suv)
    else if slug == "van" then Some(Van)
    else if slug == "luxury" then Some(Luxury)
    else None
  }

  const AllPackages: set<CarPackage> := {Sedan, Suv, Van, Luxury}

  const PackageCount: nat := 4

  /** Reading a package's slug back yields that package. */
  lemma PackageSlugReadsBack(p: CarPackage)
    ensures ParseCarPackage(p.Slug()) == Some(p)
  {
    match p
    case Sedan =>
    case Suv =>
    case Van =>
    case Luxury =>
  }

  /** There are exactly four packages, with four distinct slugs. */
  lemma PackageVocabulary()
    ensures forall p: CarPackage :: p in AllPackages
    ensures |AllPackages| == PackageCount
    ensures forall p: CarPackage, q: CarPackage :: p.Slug() == q.Slug() ==> p == q
  {
    forall p: CarPackage
      ensures p in AllPackages
    {
      match p
      case Sedan =>
      case Suv =>
      case Van =>
      case Luxury =>
    }
    forall p: CarPackage, q: CarPackage | p.Slug() == q.Slug()
      ensures p == q
    {
      PackageSlugReadsBack(p);
      PackageSlugReadsBack(q);
    }
  }

  /** A latitude/longitude pair in degrees. No range is enforced. */
  datatype Coordinate = Coordinate(latitude: real, longitude: real)

  /** One segment of a route's polyline. */
  datatype Geometry = Geometry(coordinates: seq<Coordinate>)

  /** A computed route: metres, seconds and the polyline segments. */
  datatype Route = Route(distance: real, duration: real, geometry: seq<Geometry>)

  /** A priced quote for one package; it carries the route it was priced against. */
  datatype RouteFare = RouteFare(
    id: Id,
    packageSlug: CarPackage,
    basePrice: real,
    totalPriceInCents: int,
    expiresAt: Instant,
    route: Route)

  /** A driver as attached to a trip. */
  datatype Driver = Driver(
    id: string,
    name: string,
    location: Option<Coordinate>,
    geohash: string,
    profilePicture: string,
    carPlate: string)

  /** A trip record. The selected fare and the driver are optional. */
  datatype Trip = Trip(
    id: Id,
    userId: string,
    status: TripStatus,
    route: Route,
    selectedFare: Option<RouteFare>,
    driver: Option<Driver>,
    createdAt: Instant,
    updatedAt: Instant)

  /** Go's zero time.Time, the value of a timestamp nobody has set. */
  const ZeroTime: Instant := 0
}
