/** The fare engine: a route's distance priced for every car package
    (services/trip-service/internal/infrastructure/osrm/fare_calculator.go). */
module Fares {
  import opened TripTypes

  /** Currency units per kilometre: the rate table has one entry per package. */
  function RatePerKm(pkg: CarPackage): (rate: real)
    ensures 2.50 <= rate <= 5.00
    ensures pkg == Sedan <==> rate == 2.50
    ensures pkg == Luxury <==> rate == 5.00
  {
    match pkg
    case Sedan => 2.50
    case Suv => 3.00
    case Van => 3.50
    case Luxury => 5.00
  }

  /** Flat fee added to every fare. */
  const FlatFee: real := 2.0

  /** How long a quote stays valid. */
  const QuoteWindow: int := 5 * Minute

  /** The base price of `pkg` over `distance` metres: the package's rate per
      kilometre times the kilometres, plus the flat fee. */
  function QuotedPrice(pkg: CarPackage, distance: real): real {
    RatePerKm(pkg) * (distance / 1000.0) + FlatFee
  }

  /** Go's float-to-integer conversion: the fractional part is dropped,
      so the result moves toward zero. */
  function TruncateTowardZero(x: real): (n: int)
    ensures x >= 0.0 ==> n as real <= x < n as real + 1.0
    ensures x < 0.0 ==> n as real - 1.0 < x <= n as real
  {
    if x >= 0.0 then x.Floor else -((-x).Floor)
  }

  /** A sequence that visits every key of the rate table exactly once: the
      orders Go's map iteration may produce. */
  predicate EnumeratesRates(order: seq<CarPackage>) {
    && |order| == PackageCount
    && (forall i, j :: 0 <= i < j < |order| ==> order[i] != order[j])
  }

  /** The quote for one package. */
  function PriceOne(route: Route, pkg: CarPackage, id: Id, expiresAt: Instant): (f: RouteFare)
    ensures f.packageSlug == pkg && f.id == id && f.route == route && f.expiresAt == expiresAt
    ensures f.basePrice == QuotedPrice(pkg, route.distance)
    ensures f.totalPriceInCents == TruncateTowardZero(f.basePrice * 100.0)
  {
    var distanceKm := route.distance / 1000.0;
    var basePrice := RatePerKm(pkg) * distanceKm + FlatFee;
    RouteFare(
      id := id,
      packageSlug := pkg,
      basePrice := basePrice,
      totalPriceInCents := TruncateTowardZero(basePrice * 100.0),
      expiresAt := expiresAt,
      route := route)
  }

  /** Prices the packages of `order`, in that order, drawing ids
      `firstSerial`, `firstSerial + 1`, ... */
  function PriceAll(route: Route, order: seq<CarPackage>, firstSerial: nat, expiresAt: Instant): (fares: seq<RouteFare>)
    ensures |fares| == |order|
    ensures forall i :: 0 <= i < |fares| ==> fares[i] == PriceOne(route, order[i], Id(firstSerial + i), expiresAt)
    decreases |order|
  {
    if |order| == 0 then []
    else
      var init := PriceAll(route, order[..|order| - 1], firstSerial, expiresAt);
      init + [PriceOne(route, order[|order| - 1], Id(firstSerial + |order| - 1), expiresAt)]
  }

  /** The packages a list of fares offers. */
  function PackagesOf(fares: seq<RouteFare>): set<CarPackage> {
    set i | 0 <= i < |fares| :: fares[i].packageSlug
  }

  /** One quote per package of the rate table, all expiring together at
      `now` + 5 minutes. The map's iteration order is the input `order`; the
      uuid generator hands out the serials from `firstSerial` on. There is
      no error result: the source never fails here. */
  function CalculateFares(route: Route, now: Instant, order: seq<CarPackage>, firstSerial: nat): (fares: seq<RouteFare>)
    requires EnumeratesRates(order)
    ensures |fares| == PackageCount
    ensures PackagesOf(fares) == AllPackages
    ensures forall i, j :: 0 <= i < j < |fares| ==> fares[i].packageSlug != fares[j].packageSlug
    ensures forall i :: 0 <= i < |fares| ==> fares[i].id == Id(firstSerial + i)
    ensures forall i, j :: 0 <= i < j < |fares| ==> fares[i].id != fares[j].id
    ensures forall i :: 0 <= i < |fares| ==>
      && fares[i].expiresAt == now + QuoteWindow
      && fares[i].route == route
      && fares[i].basePrice == QuotedPrice(fares[i].packageSlug, route.distance)
      && fares[i].totalPriceInCents == TruncateTowardZero(fares[i].basePrice * 100.0)
  {
    var fares := PriceAll(route, order, firstSerial, now + QuoteWindow);
    PricedPackages(route, order, firstSerial, now + QuoteWindow);
    EnumerationCoversPackages(order);
    fares
  }

  lemma PricedPackages(route: Route, order: seq<CarPackage>, firstSerial: nat, expiresAt: Instant)
    ensures PackagesOf(PriceAll(route, order, firstSerial, expiresAt)) == set i | 0 <= i < |order| :: order[i]
  {
    var fares := PriceAll(route, order, firstSerial, expiresAt);
    forall pkg | pkg in set i | 0 <= i < |order| :: order[i]
      ensures pkg in PackagesOf(fares)
    {
      var i :| 0 <= i < |order| && order[i] == pkg;
      assert fares[i].packageSlug == pkg;
    }
  }

  /** An enumeration of the rate table's keys mentions every package. */
  lemma EnumerationCoversPackages(order: seq<CarPackage>)
    requires EnumeratesRates(order)
    ensures (set i | 0 <= i < |order| :: order[i]) == AllPackages
  {
    PackageVocabulary();
    var seen := set i | 0 <= i < |order| :: order[i];
    SetCardinalityOfDistinct(order);
    SubsetOfSameSize(seen, AllPackages);
  }

  lemma SubsetOfSameSize(a: set<CarPackage>, b: set<CarPackage>)
    requires a <= b && |a| == |b|
    ensures a == b
  {
    assert |b - a| == |b| - |a|;
  }

  /** A sequence of pairwise-distinct elements has as many distinct values as it has elements. */
  lemma {:induction false} SetCardinalityOfDistinct(order: seq<CarPackage>)
    requires forall i, j :: 0 <= i < j < |order| ==> order[i] != order[j]
    ensures |set i | 0 <= i < |order| :: order[i]| == |order|
  {
    if |order| > 0 {
      var init := order[..|order| - 1];
      SetCardinalityOfDistinct(init);
      var last := order[|order| - 1];
      var s := set i | 0 <= i < |order| :: order[i];
      var t := set i | 0 <= i < |init| :: init[i];
      assert s == t + {last};
      assert last !in t;
    }
  }

  /** A route of zero length costs the flat fee, whatever the package. */
  lemma ZeroDistanceCostsFlatFee(route: Route, now: Instant, order: seq<CarPackage>, firstSerial: nat)
    requires EnumeratesRates(order)
    requires route.distance == 0.0
    ensures forall f :: f in CalculateFares(route, now, order, firstSerial) ==>
      f.basePrice == FlatFee && f.totalPriceInCents == 200
  {
  }

  /** For a fixed non-negative distance the packages price in the order
      sedan <= suv <= van <= luxury. */
  lemma PackagesPriceInOrder(distance: real)
    requires distance >= 0.0
    ensures QuotedPrice(Sedan, distance) <= QuotedPrice(Suv, distance)
    ensures QuotedPrice(Suv, distance) <= QuotedPrice(Van, distance)
    ensures QuotedPrice(Van, distance) <= QuotedPrice(Luxury, distance)
  {
  }

  /** Every package's price is non-decreasing in distance, and so are its cents. */
  lemma PriceMonotoneInDistance(pkg: CarPackage, d1: real, d2: real)
    requires d1 <= d2
    ensures QuotedPrice(pkg, d1) <= QuotedPrice(pkg, d2)
    ensures TruncateTowardZero(QuotedPrice(pkg, d1) * 100.0) <= TruncateTowardZero(QuotedPrice(pkg, d2) * 100.0)
  {
    TruncateMonotone(QuotedPrice(pkg, d1) * 100.0, QuotedPrice(pkg, d2) * 100.0);
  }

  lemma TruncateMonotone(x: real, y: real)
    requires x <= y
    ensures TruncateTowardZero(x) <= TruncateTowardZero(y)
  {
  }

  /** A 5 km sedan ride costs 2.50 * 5 + 2.00 = 14.50, that is 1450 cents. */
  lemma FiveKilometreSedan(route: Route, now: Instant, order: seq<CarPackage>, firstSerial: nat)
    requires EnumeratesRates(order)
    requires route.distance == 5000.0
    ensures forall f :: f in CalculateFares(route, now, order, firstSerial) && f.packageSlug == Sedan ==>
      f.basePrice == 14.5 && f.totalPriceInCents == 1450
  {
  }

  /** Cents are truncated, not rounded: a 3 m sedan ride is quoted 2.0075,
      which is 200 cents where rounding would give 201. */
  lemma CentsAreTruncated()
    ensures QuotedPrice(Sedan, 3.0) == 2.0075
    ensures TruncateTowardZero(QuotedPrice(Sedan, 3.0) * 100.0) == 200
  {
  }
}
