/**
 * The user profile store of src/store/userStore.ts.
 *
 * Three fields: the vehicle, the preferences and whether setup is complete.
 * Every setter replaces a field with a copy of the old record in which the
 * supplied values are laid over the old ones (`{ ...old, ...partial }`); no
 * setter checks or clamps a value. A `Partial<T>` is a record of `Option`s,
 * `None` where the caller left the field out.
 */
module UserStore {
  import opened Wrappers
  import opened Types
  import opened Constants

  /** The fields of the store, as one value. */
  datatype UserState = UserState(vehicle: VehicleProfile, preferences: UserPreferences, hasCompletedSetup: bool)

  /** The state the store starts in and that resetProfile returns to. */
  const InitialUserState: UserState := UserState(DefaultVehicle, DefaultPreferences, false)

  // ---------------------------------------------------------------------
  // `Partial<VehicleProfile>` and `{ ...state.vehicle, ...partial }`
  // ---------------------------------------------------------------------

  datatype VehiclePatch = VehiclePatch(
    name: Option<string>,
    fuelType: Option<FuelType>,
    tankCapacityGallons: Option<real>,
    fuelEfficiencyMpg: Option<real>,
    currentFuelLevel: Option<real>,
    safetyBufferPercent: Option<real>)

  const NoVehicleFields: VehiclePatch := VehiclePatch(None, None, None, None, None, None)

  /** Each supplied field overwrites the vehicle's; every other field is kept. */
  function MergeVehicle(v: VehicleProfile, p: VehiclePatch): (r: VehicleProfile)
    ensures r.name == if p.name.Some? then p.name.value else v.name
    ensures r.fuelType == if p.fuelType.Some? then p.fuelType.value else v.fuelType
    ensures r.tankCapacityGallons == if p.tankCapacityGallons.Some? then p.tankCapacityGallons.value else v.tankCapacityGallons
    ensures r.fuelEfficiencyMpg == if p.fuelEfficiencyMpg.Some? then p.fuelEfficiencyMpg.value else v.fuelEfficiencyMpg
    ensures r.currentFuelLevel == if p.currentFuelLevel.Some? then p.currentFuelLevel.value else v.currentFuelLevel
    ensures r.safetyBufferPercent == if p.safetyBufferPercent.Some? then p.safetyBufferPercent.value else v.safetyBufferPercent
  {
    VehicleProfile(
      p.name.GetOr(v.name),
      p.fuelType.GetOr(v.fuelType),
      p.tankCapacityGallons.GetOr(v.tankCapacityGallons),
      p.fuelEfficiencyMpg.GetOr(v.fuelEfficiencyMpg),
      p.currentFuelLevel.GetOr(v.currentFuelLevel),
      p.safetyBufferPercent.GetOr(v.safetyBufferPercent))
  }

  /** The patch that supplies what `q` supplies and otherwise what `p` does. */
  function ThenVehicle(p: VehiclePatch, q: VehiclePatch): VehiclePatch {
    VehiclePatch(
      if q.name.Some? then q.name else p.name,
      if q.fuelType.Some? then q.fuelType else p.fuelType,
      if q.tankCapacityGallons.Some? then q.tankCapacityGallons else p.tankCapacityGallons,
      if q.fuelEfficiencyMpg.Some? then q.fuelEfficiencyMpg else p.fuelEfficiencyMpg,
      if q.currentFuelLevel.Some? then q.currentFuelLevel else p.currentFuelLevel,
      if q.safetyBufferPercent.Some? then q.safetyBufferPercent else p.safetyBufferPercent)
  }

  /** A patch supplying every field replaces the vehicle outright. */
  function FullVehicle(v: VehicleProfile): VehiclePatch {
    VehiclePatch(Some(v.name), Some(v.fuelType), Some(v.tankCapacityGallons), Some(v.fuelEfficiencyMpg),
                 Some(v.currentFuelLevel), Some(v.safetyBufferPercent))
  }

  lemma MergeVehicleLaws(v: VehicleProfile, w: VehicleProfile, p: VehiclePatch, q: VehiclePatch)
    ensures MergeVehicle(v, NoVehicleFields) == v
    ensures MergeVehicle(MergeVehicle(v, p), p) == MergeVehicle(v, p)
    ensures MergeVehicle(MergeVehicle(v, p), q) == MergeVehicle(v, ThenVehicle(p, q))
    ensures MergeVehicle(v, FullVehicle(w)) == w
  {
  }

  // ---------------------------------------------------------------------
  // `Partial<UserPreferences>` and `{ ...state.preferences, ...partial }`
  // ---------------------------------------------------------------------

  /** A supplied `dining` or `lodging` replaces the nested record whole; the spread is one level deep. */
  datatype PreferencesPatch = PreferencesPatch(
    maxDrivingDurationMinutes: Option<real>,
    restFrequencyMinutes: Option<real>,
    fuelBudgetLevel: Option<BudgetLevel>,
    dining: Option<DiningPreferences>,
    lodging: Option<LodgingPreferences>,
    preferredBrands: Option<seq<string>>,
    avoidHighways: Option<bool>)

  const NoPreferenceFields: PreferencesPatch := PreferencesPatch(None, None, None, None, None, None, None)

  function MergePreferences(u: UserPreferences, p: PreferencesPatch): (r: UserPreferences)
    ensures r.maxDrivingDurationMinutes == if p.maxDrivingDurationMinutes.Some? then p.maxDrivingDurationMinutes.value else u.maxDrivingDurationMinutes
    ensures r.restFrequencyMinutes == if p.restFrequencyMinutes.Some? then p.restFrequencyMinutes.value else u.restFrequencyMinutes
    ensures r.fuelBudgetLevel == if p.fuelBudgetLevel.Some? then p.fuelBudgetLevel.value else u.fuelBudgetLevel
    ensures r.dining == if p.dining.Some? then p.dining.value else u.dining
    ensures r.lodging == if p.lodging.Some? then p.lodging.value else u.lodging
    ensures r.preferredBrands == if p.preferredBrands.Some? then p.preferredBrands.value else u.preferredBrands
    ensures r.avoidHighways == if p.avoidHighways.Some? then p.avoidHighways.value else u.avoidHighways
  {
    UserPreferences(
      p.maxDrivingDurationMinutes.GetOr(u.maxDrivingDurationMinutes),
      p.restFrequencyMinutes.GetOr(u.restFrequencyMinutes),
      p.fuelBudgetLevel.GetOr(u.fuelBudgetLevel),
      p.dining.GetOr(u.dining),
      p.lodging.GetOr(u.lodging),
      p.preferredBrands.GetOr(u.preferredBrands),
      p.avoidHighways.GetOr(u.avoidHighways))
  }

  function ThenPreferences(p: PreferencesPatch, q: PreferencesPatch): PreferencesPatch {
    PreferencesPatch(
      if q.maxDrivingDurationMinutes.Some? then q.maxDrivingDurationMinutes else p.maxDrivingDurationMinutes,
      if q.restFrequencyMinutes.Some? then q.restFrequencyMinutes else p.restFrequencyMinutes,
      if q.fuelBudgetLevel.Some? then q.fuelBudgetLevel else p.fuelBudgetLevel,
      if q.dining.Some? then q.dining else p.dining,
      if q.lodging.Some? then q.lodging else p.lodging,
      if q.preferredBrands.Some? then q.preferredBrands else p.preferredBrands,
      if q.avoidHighways.Some? then q.avoidHighways else p.avoidHighways)
  }

  lemma MergePreferencesLaws(u: UserPreferences, p: PreferencesPatch, q: PreferencesPatch)
    ensures MergePreferences(u, NoPreferenceFields) == u
    ensures MergePreferences(MergePreferences(u, p), p) == MergePreferences(u, p)
    ensures MergePreferences(MergePreferences(u, p), q) == MergePreferences(u, ThenPreferences(p, q))
  {
  }

  // ---------------------------------------------------------------------
  // The nested merges of setDiningPreferences and setLodgingPreferences
  // ---------------------------------------------------------------------

  datatype DiningPatch = DiningPatch(
    cuisineTypes: Option<seq<string>>,
    dietaryRestrictions: Option<seq<string>>,
    budgetLevel: Option<BudgetLevel>)

  function MergeDining(d: DiningPreferences, p: DiningPatch): (r: DiningPreferences)
    ensures r.cuisineTypes == if p.cuisineTypes.Some? then p.cuisineTypes.value else d.cuisineTypes
    ensures r.dietaryRestrictions == if p.dietaryRestrictions.Some? then p.dietaryRestrictions.value else d.dietaryRestrictions
    ensures r.budgetLevel == if p.budgetLevel.Some? then p.budgetLevel.value else d.budgetLevel
  {
    DiningPreferences(
      p.cuisineTypes.GetOr(d.cuisineTypes),
      p.dietaryRestrictions.GetOr(d.dietaryRestrictions),
      p.budgetLevel.GetOr(d.budgetLevel))
  }

  datatype LodgingPatch = LodgingPatch(
    minStarRating: Option<real>,
    amenities: Option<seq<string>>,
    budgetLevel: Option<BudgetLevel>)

  function MergeLodging(l: LodgingPreferences, p: LodgingPatch): (r: LodgingPreferences)
    ensures r.minStarRating == if p.minStarRating.Some? then p.minStarRating.value else l.minStarRating
    ensures r.amenities == if p.amenities.Some? then p.amenities.value else l.amenities
    ensures r.budgetLevel == if p.budgetLevel.Some? then p.budgetLevel.value else l.budgetLevel
  {
    LodgingPreferences(
      p.minStarRating.GetOr(l.minStarRating),
      p.amenities.GetOr(l.amenities),
      p.budgetLevel.GetOr(l.budgetLevel))
  }

  /** An empty nested partial leaves the nested record as it was, and merging twice is merging once. */
  lemma NestedMergeLaws(d: DiningPreferences, dp: DiningPatch, l: LodgingPreferences, lp: LodgingPatch)
    ensures MergeDining(d, DiningPatch(None, None, None)) == d
    ensures MergeDining(MergeDining(d, dp), dp) == MergeDining(d, dp)
    ensures MergeLodging(l, LodgingPatch(None, None, None)) == l
    ensures MergeLodging(MergeLodging(l, lp), lp) == MergeLodging(l, lp)
  {
  }

  /**
   * setDiningPreferences is setPreferences with only `dining` supplied, its
   * value the old dining record merged with the nested partial; the same for
   * lodging. A plain setPreferences with a `dining` instead drops every
   * dining field it does not repeat.
   */
  lemma NestedSettersArePreferencePatches(u: UserPreferences, dp: DiningPatch, lp: LodgingPatch)
    ensures u.(dining := MergeDining(u.dining, dp)) ==
            MergePreferences(u, NoPreferenceFields.(dining := Some(MergeDining(u.dining, dp))))
    ensures u.(lodging := MergeLodging(u.lodging, lp)) ==
            MergePreferences(u, NoPreferenceFields.(lodging := Some(MergeLodging(u.lodging, lp))))
  {
  }

  /** Each single-field vehicle setter is setVehicle with that one field supplied. */
  lemma VehicleSettersArePatches(v: VehicleProfile, fuelType: FuelType, gallons: real, mpg: real, level: real, percent: real)
    ensures v.(fuelType := fuelType) == MergeVehicle(v, NoVehicleFields.(fuelType := Some(fuelType)))
    ensures v.(tankCapacityGallons := gallons) == MergeVehicle(v, NoVehicleFields.(tankCapacityGallons := Some(gallons)))
    ensures v.(fuelEfficiencyMpg := mpg) == MergeVehicle(v, NoVehicleFields.(fuelEfficiencyMpg := Some(mpg)))
    ensures v.(currentFuelLevel := level) == MergeVehicle(v, NoVehicleFields.(currentFuelLevel := Some(level)))
    ensures v.(safetyBufferPercent := percent) == MergeVehicle(v, NoVehicleFields.(safetyBufferPercent := Some(percent)))
  {
  }

  /** Each single-field preference setter is setPreferences with that one field supplied. */
  lemma PreferenceSettersArePatches(u: UserPreferences, minutes: real, level: BudgetLevel, brands: seq<string>, avoid: bool)
    ensures u.(maxDrivingDurationMinutes := minutes) == MergePreferences(u, NoPreferenceFields.(maxDrivingDurationMinutes := Some(minutes)))
    ensures u.(restFrequencyMinutes := minutes) == MergePreferences(u, NoPreferenceFields.(restFrequencyMinutes := Some(minutes)))
    ensures u.(fuelBudgetLevel := level) == MergePreferences(u, NoPreferenceFields.(fuelBudgetLevel := Some(level)))
    ensures u.(preferredBrands := brands) == MergePreferences(u, NoPreferenceFields.(preferredBrands := Some(brands)))
    ensures u.(avoidHighways := avoid) == MergePreferences(u, NoPreferenceFields.(avoidHighways := Some(avoid)))
  {
  }

  // ---------------------------------------------------------------------
  // The store
  // ---------------------------------------------------------------------

  class UserProfileStore {
    var vehicle: VehicleProfile
    var preferences: UserPreferences
    var hasCompletedSetup: bool

    function Snapshot(): UserState
      reads this
    {
      UserState(vehicle, preferences, hasCompletedSetup)
    }

    /** Starts from the default vehicle and preferences, setup not completed. */
    constructor ()
      ensures Snapshot() == InitialUserState
    {
      vehicle := DefaultVehicle;
      preferences := DefaultPreferences;
      hasCompletedSetup := false;
    }

    /** Overwrites exactly the supplied vehicle fields. */
    method SetVehicle(partial: VehiclePatch)
      modifies this
      ensures Snapshot() == old(Snapshot()).(vehicle := MergeVehicle(old(vehicle), partial))
    {
      vehicle := MergeVehicle(vehicle, partial);
    }

    method SetFuelType(fuelType: FuelType)
      modifies this
      ensures Snapshot() == old(Snapshot()).(vehicle := old(vehicle).(fuelType := fuelType))
    {
      vehicle := vehicle.(fuelType := fuelType);
    }

    method SetTankCapacity(gallons: real)
      modifies this
      ensures Snapshot() == old(Snapshot()).(vehicle := old(vehicle).(tankCapacityGallons := gallons))
    {
      vehicle := vehicle.(tankCapacityGallons := gallons);
    }

    method SetFuelEfficiency(mpg: real)
      modifies this
      ensures Snapshot() == old(Snapshot()).(vehicle := old(vehicle).(fuelEfficiencyMpg := mpg))
    {
      vehicle := vehicle.(fuelEfficiencyMpg := mpg);
    }

    /** Stores any level, in or out of [0, 1]. */
    method SetCurrentFuelLevel(level: real)
      modifies this
      ensures Snapshot() == old(Snapshot()).(vehicle := old(vehicle).(currentFuelLevel := level))
    {
      vehicle := vehicle.(currentFuelLevel := level);
    }

    method SetSafetyBuffer(percent: real)
      modifies this
      ensures Snapshot() == old(Snapshot()).(vehicle := old(vehicle).(safetyBufferPercent := percent))
    {
      vehicle := vehicle.(safetyBufferPercent := percent);
    }

    /** Overwrites exactly the supplied preference fields. */
    method SetPreferences(partial: PreferencesPatch)
      modifies this
      ensures Snapshot() == old(Snapshot()).(preferences := MergePreferences(old(preferences), partial))
    {
      preferences := MergePreferences(preferences, partial);
    }

    method SetMaxDrivingDuration(minutes: real)
      modifies this
      ensures Snapshot() == old(Snapshot()).(preferences := old(preferences).(maxDrivingDurationMinutes := minutes))
    {
      preferences := preferences.(maxDrivingDurationMinutes := minutes);
    }

    method SetRestFrequency(minutes: real)
      modifies this
      ensures Snapshot() == old(Snapshot()).(preferences := old(preferences).(restFrequencyMinutes := minutes))
    {
      preferences := preferences.(restFrequencyMinutes := minutes);
    }

    method SetFuelBudget(level: BudgetLevel)
      modifies this
      ensures Snapshot() == old(Snapshot()).(preferences := old(preferences).(fuelBudgetLevel := level))
    {
      preferences := preferences.(fuelBudgetLevel := level);
    }

    /** Merges into the nested dining record; the other preference fields stay. */
    method SetDiningPreferences(dining: DiningPatch)
      modifies this
      ensures Snapshot() == old(Snapshot()).(preferences := old(preferences).(dining := MergeDining(old(preferences).dining, dining)))
    {
      preferences := preferences.(dining := MergeDining(preferences.dining, dining));
    }

    /** Merges into the nested lodging record; the other preference fields stay. */
    method SetLodgingPreferences(lodging: LodgingPatch)
      modifies this
      ensures Snapshot() == old(Snapshot()).(preferences := old(preferences).(lodging := MergeLodging(old(preferences).lodging, lodging)))
    {
      preferences := preferences.(lodging := MergeLodging(preferences.lodging, lodging));
    }

    method SetPreferredBrands(brands: seq<string>)
      modifies this
      ensures Snapshot() == old(Snapshot()).(preferences := old(preferences).(preferredBrands := brands))
    {
      preferences := preferences.(preferredBrands := brands);
    }

    method SetAvoidHighways(avoid: bool)
      modifies this
      ensures Snapshot() == old(Snapshot()).(preferences := old(preferences).(avoidHighways := avoid))
    {
      preferences := preferences.(avoidHighways := avoid);
    }

    /** Sets the flag; calling it again changes nothing. */
    method CompleteSetup()
      modifies this
      ensures Snapshot() == old(Snapshot()).(hasCompletedSetup := true)
    {
      hasCompletedSetup := true;
    }

    /** Back to the defaults with setup not completed, whatever came before. */
    method ResetProfile()
      modifies this
      ensures Snapshot() == InitialUserState
    {
      vehicle := DefaultVehicle;
      preferences := DefaultPreferences;
      hasCompletedSetup := false;
    }
  }
}
