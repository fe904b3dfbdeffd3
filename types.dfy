/**
 * The records of the trip planner (src/types/index.ts).
 * Numbers are JavaScript doubles in the source; here they are `real`, except
 * price levels (`nat`, Google's 0..4 scale) and timestamps (`int`, milliseconds).
 */
module Types {
  import opened Wrappers

  datatype LatLng = LatLng(lat: real, lng: real)

  datatype Location = Location(latLng: LatLng, address: string, placeId: Option<string>)

  datatype FuelType = Gasoline | Diesel | Electric | Hybrid

  datatype VehicleProfile = VehicleProfile(
    name: string,
    fuelType: FuelType,
    tankCapacityGallons: real,
    fuelEfficiencyMpg: real,
    currentFuelLevel: real,
    safetyBufferPercent: real)

  datatype BudgetLevel = Budget | Moderate | Premium

  datatype DiningPreferences = DiningPreferences(
    cuisineTypes: seq<string>,
    dietaryRestrictions: seq<string>,
    budgetLevel: BudgetLevel)

  datatype LodgingPreferences = LodgingPreferences(
    minStarRating: real,
    amenities: seq<string>,
    budgetLevel: BudgetLevel)

  datatype UserPreferences = UserPreferences(
    maxDrivingDurationMinutes: real,
    restFrequencyMinutes: real,
    fuelBudgetLevel: BudgetLevel,
    dining: DiningPreferences,
    lodging: LodgingPreferences,
    preferredBrands: seq<string>,
    avoidHighways: bool)

  datatype TripStatus = Planning | Active | Paused | Completed

  datatype RouteStep = RouteStep(
    startLocation: LatLng,
    endLocation: LatLng,
    distanceMiles: real,
    durationMinutes: real,
    instruction: string,
    polyline: string)

  datatype RouteLeg = RouteLeg(
    startLocation: LatLng,
    endLocation: LatLng,
    distanceMiles: real,
    durationMinutes: real,
    steps: seq<RouteStep>)

  datatype Bounds = Bounds(northeast: LatLng, southwest: LatLng)

  datatype RouteData = RouteData(
    polyline: string,
    totalDistanceMiles: real,
    totalDurationMinutes: real,
    legs: seq<RouteLeg>,
    bounds: Bounds)

  datatype StopCategory = Fuel | Restaurant | Rest | Hotel

  /** The category-specific part of a stop: a union tagged by the category. */
  datatype StopAttributes =
    | FuelAttributes(brand: string, fuelPrice: Option<real>, amenities: seq<string>)
    | RestaurantAttributes(cuisineTypes: seq<string>, priceRange: string, estimatedWaitMinutes: Option<real>)
    | RestAttributes(hasRestrooms: bool, hasPicnicArea: bool, hasVendingMachines: bool)
    | HotelAttributes(starRating: real, amenities: seq<string>, pricePerNight: Option<real>, checkInTime: Option<string>)
  {
    /** The `category` tag of the union. */
    function Category(): StopCategory {
      match this
      case FuelAttributes(_, _, _) => Fuel
      case RestaurantAttributes(_, _, _) => Restaurant
      case RestAttributes(_, _, _) => Rest
      case HotelAttributes(_, _, _, _) => Hotel
    }
  }

  datatype Stop = Stop(
    id: string,
    placeId: string,
    category: StopCategory,
    name: string,
    location: Location,
    detourDistanceMiles: real,
    detourDurationMinutes: real,
    rating: Option<real>,
    priceLevel: Option<nat>,
    photos: seq<string>,
    openNow: Option<bool>,
    attributes: StopAttributes)

  datatype RecommendationTrigger =
    | LowFuel
    | MealTime
    | DrivingDuration
    | EveningLodging
    | WeatherAlert
    | TrafficDelay
    | UserRequest

  datatype Recommendation = Recommendation(
    id: string,
    category: StopCategory,
    trigger: RecommendationTrigger,
    triggerReason: string,
    stops: seq<Stop>,
    timestamp: int,
    dismissed: bool,
    acceptedStopId: Option<string>)

  datatype TimeOfDay = Morning | Midday | Afternoon | Evening | Night

  datatype TripContext = TripContext(
    elapsedDrivingMinutes: real,
    estimatedFuelRemaining: real,
    estimatedMilesRemaining: real,
    distanceTraveledMiles: real,
    currentPosition: Option<LatLng>,
    currentSegmentIndex: int,
    timeOfDay: TimeOfDay,
    lastStopTime: Option<int>,
    minutesSinceLastStop: real)
}
