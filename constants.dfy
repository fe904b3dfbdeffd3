/** Tunables and defaults of the trip planner (src/lib/constants.ts). */
module Constants {
  import opened Types

  /** Hour of the day (0..23) from which lodging is proposed. */
  const EveningLodgingHour: int := 20

  /** How many candidate stops one recommendation carries at most. */
  const RecommendationsPerCategory: nat := 3

  const DefaultVehicle: VehicleProfile := VehicleProfile(
    name := "",
    fuelType := Gasoline,
    tankCapacityGallons := 14.0,
    fuelEfficiencyMpg := 30.0,
    currentFuelLevel := 1.0,
    safetyBufferPercent := 0.2)

  const DefaultPreferences: UserPreferences := UserPreferences(
    maxDrivingDurationMinutes := 180.0,
    restFrequencyMinutes := 120.0,
    fuelBudgetLevel := Moderate,
    dining := DiningPreferences(cuisineTypes := [], dietaryRestrictions := [], budgetLevel := Moderate),
    lodging := LodgingPreferences(minStarRating := 3.0, amenities := [], budgetLevel := Moderate),
    preferredBrands := [],
    avoidHighways := false)
}
