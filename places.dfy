/**
 * Place normalisation of src/app/api/places/route.ts: the stop category to
 * Google place type table, the per-category attributes, and the shaping of
 * a nearby-search result list into stops. The request, the fetch and the
 * response are not modelled; the photo URL, which embeds the API key, is a
 * parameter `photoUrl` from a photo reference to its URL.
 */
module Places {
  import opened Wrappers
  import opened Types
  import opened Utils
  import opened Lists

  /** `CATEGORY_TO_PLACE_TYPE`. */
  function PlaceType(c: StopCategory): string {
    match c
    case Fuel => "gas_station"
    case Restaurant => "restaurant"
    case Rest => "park"
    case Hotel => "lodging"
  }

  /** The category whose place type `t` is, if any. */
  function CategoryOfPlaceType(t: string): Option<StopCategory> {
    if t == "gas_station" then Some(Fuel)
    else if t == "restaurant" then Some(Restaurant)
    else if t == "park" then Some(Rest)
    else if t == "lodging" then Some(Hotel)
    else None
  }

  /** The table is one-to-one: every place type it yields names its category and no other. */
  lemma PlaceTypeRoundTrip(c: StopCategory, t: string)
    ensures CategoryOfPlaceType(PlaceType(c)) == Some(c)
    ensures CategoryOfPlaceType(t) == Some(c) <==> t == PlaceType(c)
  {
  }

  /** Generic place types that are not cuisines. */
  const GenericPlaceTypes: seq<string> := ["restaurant", "food", "point_of_interest", "establishment"]

  function IsCuisineType(t: string): bool {
    t !in GenericPlaceTypes
  }

  /** `(place.types || []).filter(t => ![...].includes(t))`. */
  function CuisineTypes(types: Option<seq<string>>): seq<string> {
    Filter(types.GetOr([]), IsCuisineType)
  }

  /**
   * The cuisine types are the place's types other than the four generic ones,
   * each as often as it occurs, and in the order given.
   */
  lemma CuisineTypesSpec(types: seq<string>, more: seq<string>)
    ensures CuisineTypes(None) == []
    ensures forall t :: t in CuisineTypes(Some(types)) <==> t in types && t !in GenericPlaceTypes
    ensures forall t :: multiset(CuisineTypes(Some(types)))[t] == if t in GenericPlaceTypes then 0 else multiset(types)[t]
    ensures CuisineTypes(Some(types + more)) == CuisineTypes(Some(types)) + CuisineTypes(Some(more))
  {
    FilterMembers(types, IsCuisineType);
    FilterCount(types, IsCuisineType);
    FilterAppend(types, more, IsCuisineType);
  }

  /** `buildAttributes`: the attributes of a place found for `category`. */
  function BuildAttributes(category: StopCategory, types: Option<seq<string>>, name: Option<string>, priceLevel: Option<nat>)
    : (a: StopAttributes)
    ensures a.Category() == category
  {
    match category
    case Fuel =>
      FuelAttributes(if name.None? || name.value == "" then "Unknown" else name.value, None, [])
    case Restaurant =>
      RestaurantAttributes(CuisineTypes(types), FormatPriceLevel(priceLevel), None)
    case Rest =>
      RestAttributes(true, types.Some? && "park" in types.value, false)
    case Hotel =>
      HotelAttributes(3.0, [], None, None)
  }

  /**
   * What each category's attributes say about the place: the brand is its
   * name unless that is missing or empty; the price range reads back as the
   * price level; the picnic area follows the "park" type; and everything the
   * search cannot know is fixed.
   */
  lemma BuildAttributesSpec(category: StopCategory, types: Option<seq<string>>, name: Option<string>, priceLevel: Option<nat>)
    ensures var a := BuildAttributes(category, types, name, priceLevel);
            && (a.FuelAttributes? ==>
                  && (a.brand == "Unknown" <== name.None? || name.value == "")
                  && (name.Some? && name.value != "" ==> a.brand == name.value)
                  && a.fuelPrice == None && a.amenities == [])
            && (a.RestaurantAttributes? ==>
                  && ParsePriceLevel(a.priceRange) == Some(priceLevel)
                  && (forall t :: t in a.cuisineTypes <==> types.Some? && t in types.value && t !in GenericPlaceTypes)
                  && a.estimatedWaitMinutes == None)
            && (a.RestAttributes? ==>
                  && a.hasRestrooms && !a.hasVendingMachines
                  && (a.hasPicnicArea <==> types.Some? && "park" in types.value))
            && (a.HotelAttributes? ==>
                  a.starRating == 3.0 && a.amenities == [] && a.pricePerNight == None && a.checkInTime == None)
  {
    FormatPriceLevelRoundTrip(priceLevel);
    CuisineTypesSpec(types.GetOr([]), []);
  }

  // ---------------------------------------------------------------------
  // The place -> Stop mapping
  // ---------------------------------------------------------------------

  /** One nearby-search result; fields the response may omit are `Option`s. */
  datatype Place = Place(
    placeId: string,
    name: string,
    location: LatLng,
    vicinity: Option<string>,
    rating: Option<real>,
    priceLevel: Option<nat>,
    photoReferences: Option<seq<string>>,
    openNow: Option<bool>,
    types: Option<seq<string>>)

  /** At most this many results become stops. */
  const MaxPlaces: nat := 10

  /** At most this many photos per stop. */
  const MaxPhotos: nat := 3

  function PhotoUrls(refs: Option<seq<string>>, photoUrl: string -> string): (urls: seq<string>)
    ensures var given := refs.GetOr([]);
            |urls| == if |given| <= MaxPhotos then |given| else MaxPhotos
    ensures forall i :: 0 <= i < |urls| ==> urls[i] == photoUrl(refs.value[i])
  {
    var given := Take(refs.GetOr([]), MaxPhotos);
    seq(|given|, i requires 0 <= i < |given| => photoUrl(given[i]))
  }

  /** The stop made from one place found for `category`. */
  function PlaceToStop(category: StopCategory, place: Place, photoUrl: string -> string): Stop {
    Stop(
      id := place.placeId,
      placeId := place.placeId,
      category := category,
      name := place.name,
      location := Location(place.location, place.vicinity.GetOr(""), Some(place.placeId)),
      detourDistanceMiles := 0.0,
      detourDurationMinutes := 0.0,
      rating := place.rating,
      priceLevel := place.priceLevel,
      photos := PhotoUrls(place.photoReferences, photoUrl),
      openNow := place.openNow,
      attributes := BuildAttributes(category, place.types, Some(place.name), place.priceLevel))
  }

  /** `(data.results || []).slice(0, 10).map(...)`. */
  function PlacesToStops(category: StopCategory, results: Option<seq<Place>>, photoUrl: string -> string)
    : (stops: seq<Stop>)
    ensures var given := Take(results.GetOr([]), MaxPlaces);
            |stops| == |given| && forall i :: 0 <= i < |stops| ==> stops[i] == PlaceToStop(category, given[i], photoUrl)
  {
    var given := Take(results.GetOr([]), MaxPlaces);
    seq(|given|, i requires 0 <= i < |given| => PlaceToStop(category, given[i], photoUrl))
  }

  /** A stop whose category and attribute tag agree, as src/types/index.ts intends. */
  predicate Consistent(s: Stop) {
    s.category == s.attributes.Category()
  }

  /**
   * The normalised list: the first ten places at most, in the order found,
   * each a consistent stop of the requested category, identified by its
   * place id, with no detour, its rating and price level as given (null when
   * absent) and at most three photos.
   */
  lemma PlacesToStopsSpec(category: StopCategory, results: Option<seq<Place>>, photoUrl: string -> string)
    ensures var stops := PlacesToStops(category, results, photoUrl);
            var given := results.GetOr([]);
            && |stops| == (if |given| <= MaxPlaces then |given| else MaxPlaces)
            && forall i :: 0 <= i < |stops| ==>
                 && stops[i].id == stops[i].placeId == given[i].placeId
                 && stops[i].location.placeId == Some(given[i].placeId)
                 && stops[i].category == category && Consistent(stops[i])
                 && stops[i].detourDistanceMiles == 0.0 && stops[i].detourDurationMinutes == 0.0
                 && stops[i].rating == given[i].rating && stops[i].priceLevel == given[i].priceLevel
                 && |stops[i].photos| <= MaxPhotos
  {
    var given := Take(results.GetOr([]), MaxPlaces);
    assert forall i :: 0 <= i < |given| ==> given[i] == results.GetOr([])[i];
  }
}
