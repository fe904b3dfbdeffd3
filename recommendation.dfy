/**
 * The recommendation engine of src/lib/recommendation.ts.
 *
 * Candidate stops are measured from the current position, those within the
 * fuel range are kept and sorted nearest first, and the first three are
 * offered. Fuel is always offered when a station is in range; rest stops only
 * once the driver has been driving for the rest frequency; hotels only at
 * night. The great-circle distance, the clock and the id generator are
 * parameters: `dist`, `hour`, `now` and one id per category.
 */
module Recommend {
  import opened Wrappers
  import opened Types
  import opened Constants
  import opened Utils
  import opened Lists

  /** A stop with the `_distance` filterByRange attaches to it. */
  datatype RankedStop = RankedStop(stop: Stop, distance: real)

  datatype CandidateStops = CandidateStops(gasStations: seq<Stop>, restStops: seq<Stop>, hotels: seq<Stop>)

  datatype RecommendationInput = RecommendationInput(
    currentPosition: LatLng,
    fuelRangeMiles: real,
    tripContext: TripContext,
    preferences: UserPreferences,
    stops: CandidateStops)

  function Distance(r: RankedStop): real {
    r.distance
  }

  /** Each stop with its distance from `position`, in input order. */
  function Measure(position: LatLng, stops: seq<Stop>, dist: (LatLng, LatLng) -> real): (r: seq<RankedStop>)
    ensures |r| == |stops|
    ensures forall i :: 0 <= i < |stops| ==> r[i].stop == stops[i] && r[i].distance == dist(position, stops[i].location.latLng)
  {
    seq(|stops|, i requires 0 <= i < |stops| => RankedStop(stops[i], dist(position, stops[i].location.latLng)))
  }

  function FilterByRange(position: LatLng, stops: seq<Stop>, maxDistanceMiles: real, dist: (LatLng, LatLng) -> real): seq<RankedStop> {
    Within(Measure(position, stops, dist), Distance, maxDistanceMiles)
  }

  /**
   * filterByRange keeps exactly the stops whose distance is at most the bound
   * (each as often as it was given), nearest first, and stops at the same
   * distance in their input order.
   */
  lemma FilterByRangeSpec(position: LatLng, stops: seq<Stop>, maxDistanceMiles: real, dist: (LatLng, LatLng) -> real)
    ensures var r := FilterByRange(position, stops, maxDistanceMiles, dist);
            var m := Measure(position, stops, dist);
            && (forall x :: multiset(r)[x] == if x.distance <= maxDistanceMiles then multiset(m)[x] else 0)
            && SortedBy(r, Distance)
            && (forall e :: WithKey(r, Distance, e) == if e <= maxDistanceMiles then WithKey(m, Distance, e) else [])
  {
    WithinSpec(Measure(position, stops, dist), Distance, maxDistanceMiles);
  }

  /** Every stop filterByRange returns is one of the candidates, at its measured distance, within range. */
  lemma FilterByRangeMembers(position: LatLng, stops: seq<Stop>, maxDistanceMiles: real, dist: (LatLng, LatLng) -> real)
    ensures forall x :: x in FilterByRange(position, stops, maxDistanceMiles, dist) ==>
              x.stop in stops && x.distance == dist(position, x.stop.location.latLng) && x.distance <= maxDistanceMiles
  {
    var r := FilterByRange(position, stops, maxDistanceMiles, dist);
    var m := Measure(position, stops, dist);
    FilterByRangeSpec(position, stops, maxDistanceMiles, dist);
    forall x | x in r
      ensures x.stop in stops && x.distance == dist(position, x.stop.location.latLng) && x.distance <= maxDistanceMiles
    {
      assert multiset(r)[x] > 0;
      assert x in multiset(m);
      var i :| 0 <= i < |m| && m[i] == x;
      assert stops[i] == x.stop;
    }
  }

  /** A prefix of the ranked stops, as long as the per-category limit allows. */
  predicate NearestPrefix(r: seq<RankedStop>, ranked: seq<RankedStop>) {
    r <= ranked && |r| == if |ranked| <= RecommendationsPerCategory then |ranked| else RecommendationsPerCategory
  }

  function RecommendGas(position: LatLng, fuelRangeMiles: real, gasStations: seq<Stop>, dist: (LatLng, LatLng) -> real): (r: seq<RankedStop>)
    ensures NearestPrefix(r, FilterByRange(position, gasStations, fuelRangeMiles, dist))
  {
    Take(FilterByRange(position, gasStations, fuelRangeMiles, dist), RecommendationsPerCategory)
  }

  function RecommendRest(
    position: LatLng, fuelRangeMiles: real, elapsedDrivingMinutes: real, restFrequencyMinutes: real,
    restStops: seq<Stop>, dist: (LatLng, LatLng) -> real): (r: seq<RankedStop>)
    ensures elapsedDrivingMinutes < restFrequencyMinutes ==> r == []
    ensures restFrequencyMinutes <= elapsedDrivingMinutes ==>
              NearestPrefix(r, FilterByRange(position, restStops, fuelRangeMiles, dist))
  {
    if elapsedDrivingMinutes < restFrequencyMinutes then []
    else Take(FilterByRange(position, restStops, fuelRangeMiles, dist), RecommendationsPerCategory)
  }

  function RecommendHotel(
    position: LatLng, fuelRangeMiles: real, isNight: bool, hotels: seq<Stop>,
    dist: (LatLng, LatLng) -> real): (r: seq<RankedStop>)
    ensures !isNight ==> r == []
    ensures isNight ==> NearestPrefix(r, FilterByRange(position, hotels, fuelRangeMiles, dist))
  {
    if !isNight then []
    else Take(FilterByRange(position, hotels, fuelRangeMiles, dist), RecommendationsPerCategory)
  }

  /** What is offered is the nearest of what is in range: no stop left out is nearer than one offered. */
  lemma NearestOffered(r: seq<RankedStop>, position: LatLng, stops: seq<Stop>, fuelRangeMiles: real, dist: (LatLng, LatLng) -> real)
    requires NearestPrefix(r, FilterByRange(position, stops, fuelRangeMiles, dist))
    ensures var ranked := FilterByRange(position, stops, fuelRangeMiles, dist);
            forall i, j :: 0 <= i < |r| <= j < |ranked| ==> r[i].distance <= ranked[j].distance
  {
    var ranked := FilterByRange(position, stops, fuelRangeMiles, dist);
    assert SortedBy(ranked, Distance) by {
      FilterByRangeSpec(position, stops, fuelRangeMiles, dist);
    }
    forall i, j | 0 <= i < |r| <= j < |ranked|
      ensures r[i].distance <= ranked[j].distance
    {
      assert r[i] == ranked[i];
      assert Distance(ranked[i]) <= Distance(ranked[j]);
    }
  }

  /** `now.getHours() >= EVENING_LODGING_HOUR || getTimeOfDay(now) === "night"`. */
  function IsNight(hour: int): (b: bool)
    ensures 0 <= hour <= 23 ==> (b <==> 20 <= hour || hour <= 4)
  {
    hour >= EveningLodgingHour || GetTimeOfDay(hour) == Night
  }

  /** `Math.round`: the nearest integer, halves rounded up. */
  function Round(x: real): (n: int)
    ensures n as real - 0.5 <= x < n as real + 0.5
  {
    (x + 0.5).Floor
  }

  function StopsOf(ranked: seq<RankedStop>): (stops: seq<Stop>)
    ensures |stops| == |ranked|
    ensures forall i :: 0 <= i < |ranked| ==> stops[i] == ranked[i].stop
  {
    seq(|ranked|, i requires 0 <= i < |ranked| => ranked[i].stop)
  }

  const LowFuelReason: string := "Fuel level is getting low"
  const NearbyGasReason: string := "Nearby gas stations"
  const LateReason: string := "It's getting late — consider stopping for the night"

  function DrivingReason(elapsedDrivingMinutes: real): string {
    "You've been driving for " + IntToString(Round(elapsedDrivingMinutes)) + " minutes"
  }

  /** Position of a category in the result: fuel, then rest, then hotel. */
  function PushOrder(c: StopCategory): nat {
    match c
    case Fuel => 0
    case Rest => 1
    case Hotel => 2
    case Restaurant => 3
  }

  predicate HasCategory(recs: seq<Recommendation>, c: StopCategory) {
    exists i :: 0 <= i < |recs| && recs[i].category == c
  }

  /** The fuel record of getRecommendations: `low_fuel` at a quarter tank or less, else `user_request`. */
  function FuelRecommendation(id: string, fuelRemaining: real, stops: seq<Stop>, now: int): Recommendation {
    var trigger := if fuelRemaining <= 0.25 then LowFuel else UserRequest;
    var reason := if trigger == LowFuel then LowFuelReason else NearbyGasReason;
    Recommendation(id, Fuel, trigger, reason, stops, now, false, None)
  }

  function RestRecommendation(id: string, elapsedDrivingMinutes: real, stops: seq<Stop>, now: int): Recommendation {
    Recommendation(id, Rest, DrivingDuration, DrivingReason(elapsedDrivingMinutes), stops, now, false, None)
  }

  function HotelRecommendation(id: string, stops: seq<Stop>, now: int): Recommendation {
    Recommendation(id, Hotel, EveningLodging, LateReason, stops, now, false, None)
  }

  /** The record pushed when `pushed` holds, as a list of zero or one. */
  function PushedIf(pushed: bool, r: Recommendation): seq<Recommendation> {
    if pushed then [r] else []
  }

  /** The records three guarded pushes leave are exactly the ones pushed. */
  lemma PushedMembers(
    recs: seq<Recommendation>, a: bool, x: Recommendation, b: bool, y: Recommendation, c: bool, z: Recommendation)
    requires recs == PushedIf(a, x) + PushedIf(b, y) + PushedIf(c, z)
    ensures forall r :: r in recs <==> (a && r == x) || (b && r == y) || (c && r == z)
  {
  }

  /** Three guarded pushes of a fuel, a rest and a hotel record keep the push order. */
  lemma PushedOrder(
    recs: seq<Recommendation>, a: bool, x: Recommendation, b: bool, y: Recommendation, c: bool, z: Recommendation)
    requires recs == PushedIf(a, x) + PushedIf(b, y) + PushedIf(c, z)
    requires x.category == Fuel && y.category == Rest && z.category == Hotel
    ensures |recs| <= 3
    ensures forall i, j :: 0 <= i < j < |recs| ==> PushOrder(recs[i].category) < PushOrder(recs[j].category)
  {
  }

  /** After the pushes a category is present exactly when its record was pushed, and only as that record. */
  lemma PushedCategories(
    recs: seq<Recommendation>, a: bool, x: Recommendation, b: bool, y: Recommendation, c: bool, z: Recommendation)
    requires recs == PushedIf(a, x) + PushedIf(b, y) + PushedIf(c, z)
    requires x.category == Fuel && y.category == Rest && z.category == Hotel
    ensures forall r :: r in recs && r.category == Fuel ==> r == x
    ensures forall r :: r in recs && r.category == Rest ==> r == y
    ensures forall r :: r in recs && r.category == Hotel ==> r == z
    ensures (HasCategory(recs, Fuel) <==> a) && (HasCategory(recs, Rest) <==> b) && (HasCategory(recs, Hotel) <==> c)
  {
    PushedMembers(recs, a, x, b, y, c, z);
    if a {
      assert recs[0] == x;
    }
    if b {
      assert recs[|PushedIf(a, x)|] == y;
    }
    if c {
      assert recs[|recs| - 1] == z;
    }
  }

  /** A record as pushed: open, undismissed, stamped `now`, with one to three stops. */
  predicate Fresh(r: Recommendation, now: int) {
    0 < |r.stops| <= RecommendationsPerCategory && !r.dismissed && r.acceptedStopId == None && r.timestamp == now
  }

  /** Three guarded pushes of a fuel, a rest and a hotel record give each category at most once, in that order. */
  lemma ThreePushes(
    recs: seq<Recommendation>, now: int,
    a: bool, x: Recommendation, b: bool, y: Recommendation, c: bool, z: Recommendation)
    requires recs == PushedIf(a, x) + PushedIf(b, y) + PushedIf(c, z)
    requires x.category == Fuel && y.category == Rest && z.category == Hotel
    requires (a ==> Fresh(x, now)) && (b ==> Fresh(y, now)) && (c ==> Fresh(z, now))
    ensures OfferedShape(recs, now)
    ensures forall r :: r in recs && r.category == Fuel ==> r == x
    ensures forall r :: r in recs && r.category == Rest ==> r == y
    ensures forall r :: r in recs && r.category == Hotel ==> r == z
    ensures (HasCategory(recs, Fuel) <==> a) && (HasCategory(recs, Rest) <==> b) && (HasCategory(recs, Hotel) <==> c)
  {
    PushedMembers(recs, a, x, b, y, c, z);
    PushedOrder(recs, a, x, b, y, c, z);
    PushedCategories(recs, a, x, b, y, c, z);
  }

  /**
   * What getRecommendations promises: at most one recommendation per category,
   * in the order fuel, rest, hotel; each open, undismissed, stamped `now` and
   * carrying one to three stops; each category present exactly when its gate
   * holds and a candidate is in range; and each record's trigger, reason and
   * stops as the source builds them.
   */
  predicate Offered(
    input: RecommendationInput, dist: (LatLng, LatLng) -> real, hour: int, now: int,
    fuelId: string, restId: string, hotelId: string, recs: seq<Recommendation>)
  {
    && OfferedShape(recs, now)
    && FuelOffered(input, dist, fuelId, recs)
    && RestOffered(input, dist, restId, recs)
    && HotelOffered(input, dist, hour, hotelId, recs)
  }

  predicate OfferedShape(recs: seq<Recommendation>, now: int) {
    && |recs| <= 3
    && (forall i, j :: 0 <= i < j < |recs| ==> PushOrder(recs[i].category) < PushOrder(recs[j].category))
    && (forall r :: r in recs ==>
          r.category != Restaurant && 0 < |r.stops| <= RecommendationsPerCategory &&
          !r.dismissed && r.acceptedStopId == None && r.timestamp == now)
  }

  predicate FuelOffered(input: RecommendationInput, dist: (LatLng, LatLng) -> real, fuelId: string, recs: seq<Recommendation>) {
    var gas := RecommendGas(input.currentPosition, input.fuelRangeMiles, input.stops.gasStations, dist);
    && (HasCategory(recs, Fuel) <==> gas != [])
    && forall r :: r in recs && r.category == Fuel ==>
         && r.id == fuelId && r.stops == StopsOf(gas)
         && (r.trigger == LowFuel <==> input.tripContext.estimatedFuelRemaining <= 0.25)
         && (r.trigger == LowFuel || r.trigger == UserRequest)
         && r.triggerReason == if r.trigger == LowFuel then LowFuelReason else NearbyGasReason
  }

  predicate RestOffered(input: RecommendationInput, dist: (LatLng, LatLng) -> real, restId: string, recs: seq<Recommendation>) {
    var elapsed := input.tripContext.elapsedDrivingMinutes;
    var restFrequency := input.preferences.restFrequencyMinutes;
    var rest := RecommendRest(input.currentPosition, input.fuelRangeMiles, elapsed, restFrequency, input.stops.restStops, dist);
    && (HasCategory(recs, Rest) <==>
          restFrequency <= elapsed && FilterByRange(input.currentPosition, input.stops.restStops, input.fuelRangeMiles, dist) != [])
    && forall r :: r in recs && r.category == Rest ==>
         && r.id == restId && r.trigger == DrivingDuration && r.triggerReason == DrivingReason(elapsed)
         && r.stops == StopsOf(rest)
  }

  predicate HotelOffered(input: RecommendationInput, dist: (LatLng, LatLng) -> real, hour: int, hotelId: string, recs: seq<Recommendation>) {
    var hotels := RecommendHotel(input.currentPosition, input.fuelRangeMiles, IsNight(hour), input.stops.hotels, dist);
    && (HasCategory(recs, Hotel) <==>
          IsNight(hour) && FilterByRange(input.currentPosition, input.stops.hotels, input.fuelRangeMiles, dist) != [])
    && forall r :: r in recs && r.category == Hotel ==>
         && r.id == hotelId && r.trigger == EveningLodging && r.triggerReason == LateReason
         && r.stops == StopsOf(hotels)
  }

  /** The three guarded pushes, for any three result lists of at most three stops each. */
  lemma PushesShape(
    context: TripContext, now: int, fuelId: string, restId: string, hotelId: string,
    gas: seq<RankedStop>, rest: seq<RankedStop>, hotels: seq<RankedStop>, recs: seq<Recommendation>)
    requires |gas| <= RecommendationsPerCategory && |rest| <= RecommendationsPerCategory
    requires |hotels| <= RecommendationsPerCategory
    requires recs == PushedIf(gas != [], FuelRecommendation(fuelId, context.estimatedFuelRemaining, StopsOf(gas), now))
                   + PushedIf(rest != [], RestRecommendation(restId, context.elapsedDrivingMinutes, StopsOf(rest), now))
                   + PushedIf(hotels != [], HotelRecommendation(hotelId, StopsOf(hotels), now))
    ensures OfferedShape(recs, now)
    ensures (HasCategory(recs, Fuel) <==> gas != []) && (HasCategory(recs, Rest) <==> rest != [])
    ensures HasCategory(recs, Hotel) <==> hotels != []
    ensures forall r :: r in recs && r.category == Fuel ==>
              r == FuelRecommendation(fuelId, context.estimatedFuelRemaining, StopsOf(gas), now)
    ensures forall r :: r in recs && r.category == Rest ==>
              r == RestRecommendation(restId, context.elapsedDrivingMinutes, StopsOf(rest), now)
    ensures forall r :: r in recs && r.category == Hotel ==> r == HotelRecommendation(hotelId, StopsOf(hotels), now)
  {
    var fuelRec := FuelRecommendation(fuelId, context.estimatedFuelRemaining, StopsOf(gas), now);
    var restRec := RestRecommendation(restId, context.elapsedDrivingMinutes, StopsOf(rest), now);
    var hotelRec := HotelRecommendation(hotelId, StopsOf(hotels), now);
    ThreePushes(recs, now, gas != [], fuelRec, rest != [], restRec, hotels != [], hotelRec);
  }

  /** The three guarded pushes of getRecommendations produce what it promises. */
  lemma PushesOffered(
    input: RecommendationInput, dist: (LatLng, LatLng) -> real, hour: int, now: int,
    fuelId: string, restId: string, hotelId: string, recs: seq<Recommendation>)
    requires var p := input.currentPosition;
             var range := input.fuelRangeMiles;
             var context := input.tripContext;
             var gas := RecommendGas(p, range, input.stops.gasStations, dist);
             var rest := RecommendRest(p, range, context.elapsedDrivingMinutes,
                                       input.preferences.restFrequencyMinutes, input.stops.restStops, dist);
             var hotels := RecommendHotel(p, range, IsNight(hour), input.stops.hotels, dist);
             recs == PushedIf(gas != [], FuelRecommendation(fuelId, context.estimatedFuelRemaining, StopsOf(gas), now))
                   + PushedIf(rest != [], RestRecommendation(restId, context.elapsedDrivingMinutes, StopsOf(rest), now))
                   + PushedIf(hotels != [], HotelRecommendation(hotelId, StopsOf(hotels), now))
    ensures Offered(input, dist, hour, now, fuelId, restId, hotelId, recs)
  {
    var p := input.currentPosition;
    var range := input.fuelRangeMiles;
    var context := input.tripContext;
    var gas := RecommendGas(p, range, input.stops.gasStations, dist);
    var rest := RecommendRest(p, range, context.elapsedDrivingMinutes,
                              input.preferences.restFrequencyMinutes, input.stops.restStops, dist);
    var hotels := RecommendHotel(p, range, IsNight(hour), input.stops.hotels, dist);
    PushesShape(context, now, fuelId, restId, hotelId, gas, rest, hotels, recs);
    FuelPart(input, dist, fuelId, now, recs);
    RestPart(input, dist, restId, now, recs);
    HotelPart(input, dist, hour, hotelId, now, recs);
  }

  lemma FuelPart(input: RecommendationInput, dist: (LatLng, LatLng) -> real, fuelId: string, now: int, recs: seq<Recommendation>)
    requires var gas := RecommendGas(input.currentPosition, input.fuelRangeMiles, input.stops.gasStations, dist);
             && (HasCategory(recs, Fuel) <==> gas != [])
             && forall r :: r in recs && r.category == Fuel ==>
                  r == FuelRecommendation(fuelId, input.tripContext.estimatedFuelRemaining, StopsOf(gas), now)
    ensures FuelOffered(input, dist, fuelId, recs)
  {
  }

  lemma RestPart(input: RecommendationInput, dist: (LatLng, LatLng) -> real, restId: string, now: int, recs: seq<Recommendation>)
    requires var elapsed := input.tripContext.elapsedDrivingMinutes;
             var rest := RecommendRest(input.currentPosition, input.fuelRangeMiles, elapsed,
                                       input.preferences.restFrequencyMinutes, input.stops.restStops, dist);
             && (HasCategory(recs, Rest) <==> rest != [])
             && forall r :: r in recs && r.category == Rest ==> r == RestRecommendation(restId, elapsed, StopsOf(rest), now)
    ensures RestOffered(input, dist, restId, recs)
  {
  }

  lemma HotelPart(input: RecommendationInput, dist: (LatLng, LatLng) -> real, hour: int, hotelId: string, now: int, recs: seq<Recommendation>)
    requires var hotels := RecommendHotel(input.currentPosition, input.fuelRangeMiles, IsNight(hour), input.stops.hotels, dist);
             && (HasCategory(recs, Hotel) <==> hotels != [])
             && forall r :: r in recs && r.category == Hotel ==> r == HotelRecommendation(hotelId, StopsOf(hotels), now)
    ensures HotelOffered(input, dist, hour, hotelId, recs)
  {
  }

  /** `if (found.length > 0) recommendations.push(r)`. */
  method PushIfAny(recs: seq<Recommendation>, found: seq<RankedStop>, r: Recommendation)
    returns (recs': seq<Recommendation>)
    ensures recs' == recs + PushedIf(found != [], r)
  {
    recs' := recs;
    if |found| > 0 {
      recs' := recs' + [r];
    }
  }

  /** getRecommendations: builds the list by pushing at most one recommendation per category. */
  method GetRecommendations(
    input: RecommendationInput, dist: (LatLng, LatLng) -> real, hour: int, now: int,
    fuelId: string, restId: string, hotelId: string)
    returns (recs: seq<Recommendation>)
    ensures Offered(input, dist, hour, now, fuelId, restId, hotelId, recs)
  {
    recs := [];
    var isNight := IsNight(hour);
    var context := input.tripContext;

    var gasStops := RecommendGas(input.currentPosition, input.fuelRangeMiles, input.stops.gasStations, dist);
    var fuelRec := FuelRecommendation(fuelId, context.estimatedFuelRemaining, StopsOf(gasStops), now);
    recs := PushIfAny(recs, gasStops, fuelRec);
    ghost var afterFuel := recs;
    assert afterFuel == PushedIf(gasStops != [], fuelRec);

    var restStops := RecommendRest(
      input.currentPosition, input.fuelRangeMiles, context.elapsedDrivingMinutes,
      input.preferences.restFrequencyMinutes, input.stops.restStops, dist);
    var restRec := RestRecommendation(restId, context.elapsedDrivingMinutes, StopsOf(restStops), now);
    recs := PushIfAny(recs, restStops, restRec);
    ghost var afterRest := recs;

    var hotelStops := RecommendHotel(input.currentPosition, input.fuelRangeMiles, isNight, input.stops.hotels, dist);
    var hotelRec := HotelRecommendation(hotelId, StopsOf(hotelStops), now);
    recs := PushIfAny(recs, hotelStops, hotelRec);
    assert recs == afterFuel + PushedIf(restStops != [], restRec) + PushedIf(hotelStops != [], hotelRec);
    PushesOffered(input, dist, hour, now, fuelId, restId, hotelId, recs);
  }
}
