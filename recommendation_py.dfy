/**
 * The Python recommender of src/lib/recommendation.py.
 *
 * Each function walks the points of interest, appends a
 * (name, distance, lat, lon, type) tuple for each one within the fuel range,
 * sorts the tuples by distance with list.sort (stable) and returns at most the
 * ten nearest. The haversine distance is a parameter.
 */
module RecommendPy {
  import opened Lists

  /** A row of the points-of-interest file: name, "@lat", "@lon" and type. */
  datatype Poi = Poi(name: string, lat: real, lon: real, kind: string)

  /** The tuple `(name, distance, lat, lon, type)` appended for a point in range. */
  datatype PoiMatch = PoiMatch(name: string, distance: real, lat: real, lon: real, kind: string)

  /** `recommendations[:10]`. */
  const MaxResults: nat := 10

  type Haversine = (real, real, real, real) -> real

  function MatchDistance(m: PoiMatch): real {
    m.distance
  }

  /** The tuple for `p` at its distance from the current position. */
  function MatchOf(currentLat: real, currentLon: real, p: Poi, haversine: Haversine): PoiMatch {
    PoiMatch(p.name, haversine(currentLat, currentLon, p.lat, p.lon), p.lat, p.lon, p.kind)
  }

  /** The tuple of every point, in input order. */
  function Matches(currentLat: real, currentLon: real, pois: seq<Poi>, haversine: Haversine): (r: seq<PoiMatch>)
    ensures |r| == |pois|
    ensures forall i :: 0 <= i < |pois| ==> r[i] == MatchOf(currentLat, currentLon, pois[i], haversine)
  {
    seq(|pois|, i requires 0 <= i < |pois| => MatchOf(currentLat, currentLon, pois[i], haversine))
  }

  /** The ten nearest tuples within the fuel range, nearest first. */
  function Nearest(currentLat: real, currentLon: real, fuelRange: real, pois: seq<Poi>, haversine: Haversine): seq<PoiMatch> {
    Take(Within(Matches(currentLat, currentLon, pois, haversine), MatchDistance, fuelRange), MaxResults)
  }

  /**
   * The ranking shared by the three functions: at most ten results, a prefix
   * of the in-range tuples sorted nearest first, no tuple left out nearer than
   * one returned, and tuples at equal distance in input order.
   */
  lemma NearestSpec(currentLat: real, currentLon: real, fuelRange: real, pois: seq<Poi>, haversine: Haversine)
    ensures var r := Nearest(currentLat, currentLon, fuelRange, pois, haversine);
            var ranked := Within(Matches(currentLat, currentLon, pois, haversine), MatchDistance, fuelRange);
            && |r| <= MaxResults
            && r <= ranked
            && (|r| == MaxResults || r == ranked)
            && SortedBy(r, MatchDistance)
            && (forall i, j :: 0 <= i < |r| <= j < |ranked| ==> r[i].distance <= ranked[j].distance)
            && (forall e :: WithKey(ranked, MatchDistance, e) ==
                  if e <= fuelRange then WithKey(Matches(currentLat, currentLon, pois, haversine), MatchDistance, e) else [])
  {
    var ranked := Within(Matches(currentLat, currentLon, pois, haversine), MatchDistance, fuelRange);
    WithinSpec(Matches(currentLat, currentLon, pois, haversine), MatchDistance, fuelRange);
    TakeNearest(ranked, MatchDistance, MaxResults);
  }

  /** Every returned tuple is that of a given point, copied field by field, and within the fuel range. */
  lemma NearestMembers(currentLat: real, currentLon: real, fuelRange: real, pois: seq<Poi>, haversine: Haversine)
    ensures forall m :: m in Nearest(currentLat, currentLon, fuelRange, pois, haversine) ==>
              && m.distance <= fuelRange
              && (exists p :: p in pois && m == MatchOf(currentLat, currentLon, p, haversine))
  {
    var all := Matches(currentLat, currentLon, pois, haversine);
    var ranked := Within(all, MatchDistance, fuelRange);
    var r := Nearest(currentLat, currentLon, fuelRange, pois, haversine);
    WithinSpec(all, MatchDistance, fuelRange);
    forall m | m in r
      ensures m.distance <= fuelRange && exists p :: p in pois && m == MatchOf(currentLat, currentLon, p, haversine)
    {
      assert m in ranked;
      assert multiset(ranked)[m] > 0;
      assert m in multiset(all);
      var i :| 0 <= i < |all| && all[i] == m;
      assert pois[i] in pois;
    }
  }

  /** The loop, the in-place sort and the slice of each recommend_* function. */
  method NearestWithin(currentLat: real, currentLon: real, fuelRange: real, pois: seq<Poi>, haversine: Haversine)
    returns (result: seq<PoiMatch>)
    ensures result == Nearest(currentLat, currentLon, fuelRange, pois, haversine)
  {
    var recommendations: seq<PoiMatch> := [];
    ghost var inRange := AtMost(MatchDistance, fuelRange);
    for k := 0 to |pois|
      invariant recommendations == Filter(Matches(currentLat, currentLon, pois[..k], haversine), inRange)
    {
      var p := pois[k];
      var distance := haversine(currentLat, currentLon, p.lat, p.lon);
      ghost var before := Matches(currentLat, currentLon, pois[..k], haversine);
      ghost var m := PoiMatch(p.name, distance, p.lat, p.lon, p.kind);
      assert Matches(currentLat, currentLon, pois[..k + 1], haversine) == before + [m];
      FilterSnoc(before, m, inRange);
      assert AtMost(MatchDistance, fuelRange)(m) <==> MatchDistance(m) <= fuelRange;
      if distance <= fuelRange {
        recommendations := recommendations + [PoiMatch(p.name, distance, p.lat, p.lon, p.kind)];
      }
    }
    assert pois[..|pois|] == pois;
    recommendations := SortBy(recommendations, MatchDistance);
    result := Take(recommendations, MaxResults);
  }

  method RecommendGas(currentLat: real, currentLon: real, fuelRange: real, gasStations: seq<Poi>, haversine: Haversine)
    returns (result: seq<PoiMatch>)
    ensures result == Nearest(currentLat, currentLon, fuelRange, gasStations, haversine)
  {
    result := NearestWithin(currentLat, currentLon, fuelRange, gasStations, haversine);
  }

  /** Nothing before the rest threshold is reached; at the threshold the search runs. */
  method RecommendRest(
    currentLat: real, currentLon: real, fuelRange: real, hoursDriven: real, restThreshold: real,
    restStops: seq<Poi>, haversine: Haversine)
    returns (result: seq<PoiMatch>)
    ensures hoursDriven < restThreshold ==> result == []
    ensures restThreshold <= hoursDriven ==> result == Nearest(currentLat, currentLon, fuelRange, restStops, haversine)
  {
    if hoursDriven < restThreshold {
      return [];
    }
    result := NearestWithin(currentLat, currentLon, fuelRange, restStops, haversine);
  }

  /** Nothing only when `is_night` is exactly the string "no"; any other text searches. */
  method RecommendHotel(
    currentLat: real, currentLon: real, fuelRange: real, hotels: seq<Poi>, isNight: string,
    haversine: Haversine)
    returns (result: seq<PoiMatch>)
    ensures isNight == "no" ==> result == []
    ensures isNight != "no" ==> result == Nearest(currentLat, currentLon, fuelRange, hotels, haversine)
  {
    if isNight == "no" {
      return [];
    }
    result := NearestWithin(currentLat, currentLon, fuelRange, hotels, haversine);
  }
}
