/**
 * The trip session store of src/store/tripStore.ts.
 *
 * The store is one record whose fields each action replaces; here it is a
 * class with those fields, and every action states the whole new record in
 * terms of the old one, so what an action leaves alone is part of its
 * contract. The clock and the id generator are parameters: `hour` for the
 * hour of `new Date()` and `id`/`now` for a new recommendation.
 */
module TripStore {
  import opened Wrappers
  import opened Types
  import opened Utils
  import opened Lists

  datatype Panel = SetupPanel | OverviewPanel | RecommendationPanel

  /** The fields of the store, as one value. */
  datatype TripState = TripState(
    status: TripStatus,
    origin: Option<Location>,
    destination: Option<Location>,
    route: Option<RouteData>,
    isLoadingRoute: bool,
    routeError: Option<string>,
    context: TripContext,
    scheduledStops: seq<Stop>,
    recommendations: seq<Recommendation>,
    activePanel: Option<Panel>,
    selectedRecommendationId: Option<string>)

  /** `initialContext`, whose time of day is read once, when the module loads. */
  function InitialContext(loadHour: int): (c: TripContext)
    ensures c.elapsedDrivingMinutes == 0.0 && c.estimatedFuelRemaining == 1.0
    ensures c.estimatedMilesRemaining == 0.0 && c.distanceTraveledMiles == 0.0
    ensures c.currentPosition == None && c.currentSegmentIndex == 0
    ensures c.lastStopTime == None && c.minutesSinceLastStop == 0.0
    ensures c.timeOfDay == GetTimeOfDay(loadHour)
  {
    TripContext(0.0, 1.0, 0.0, 0.0, None, 0, GetTimeOfDay(loadHour), None, 0.0)
  }

  /** The state the store starts in and that resetTrip returns to. */
  function InitialState(context: TripContext): TripState {
    TripState(Planning, None, None, None, false, None, context, [], [], Some(SetupPanel), None)
  }

  // ---------------------------------------------------------------------
  // `Partial<TripContext>` and the spread `{ ...context, ...partial }`
  // ---------------------------------------------------------------------

  /** The fields a partial context supplies; a nullable field may be supplied as null. */
  datatype ContextPatch = ContextPatch(
    elapsedDrivingMinutes: Option<real>,
    estimatedFuelRemaining: Option<real>,
    estimatedMilesRemaining: Option<real>,
    distanceTraveledMiles: Option<real>,
    currentPosition: Option<Option<LatLng>>,
    currentSegmentIndex: Option<int>,
    timeOfDay: Option<TimeOfDay>,
    lastStopTime: Option<Option<int>>,
    minutesSinceLastStop: Option<real>)

  const EmptyPatch: ContextPatch := ContextPatch(None, None, None, None, None, None, None, None, None)

  function ApplyPatch(c: TripContext, p: ContextPatch): TripContext {
    TripContext(
      p.elapsedDrivingMinutes.GetOr(c.elapsedDrivingMinutes),
      p.estimatedFuelRemaining.GetOr(c.estimatedFuelRemaining),
      p.estimatedMilesRemaining.GetOr(c.estimatedMilesRemaining),
      p.distanceTraveledMiles.GetOr(c.distanceTraveledMiles),
      p.currentPosition.GetOr(c.currentPosition),
      p.currentSegmentIndex.GetOr(c.currentSegmentIndex),
      p.timeOfDay.GetOr(c.timeOfDay),
      p.lastStopTime.GetOr(c.lastStopTime),
      p.minutesSinceLastStop.GetOr(c.minutesSinceLastStop))
  }

  /** The patch that supplies what `q` supplies and otherwise what `p` does. */
  function ThenPatch(p: ContextPatch, q: ContextPatch): ContextPatch {
    ContextPatch(
      if q.elapsedDrivingMinutes.Some? then q.elapsedDrivingMinutes else p.elapsedDrivingMinutes,
      if q.estimatedFuelRemaining.Some? then q.estimatedFuelRemaining else p.estimatedFuelRemaining,
      if q.estimatedMilesRemaining.Some? then q.estimatedMilesRemaining else p.estimatedMilesRemaining,
      if q.distanceTraveledMiles.Some? then q.distanceTraveledMiles else p.distanceTraveledMiles,
      if q.currentPosition.Some? then q.currentPosition else p.currentPosition,
      if q.currentSegmentIndex.Some? then q.currentSegmentIndex else p.currentSegmentIndex,
      if q.timeOfDay.Some? then q.timeOfDay else p.timeOfDay,
      if q.lastStopTime.Some? then q.lastStopTime else p.lastStopTime,
      if q.minutesSinceLastStop.Some? then q.minutesSinceLastStop else p.minutesSinceLastStop)
  }

  /** Spreading an empty partial changes nothing. */
  lemma EmptyPatchKeeps(c: TripContext)
    ensures ApplyPatch(c, EmptyPatch) == c
  {
  }

  /** Spreading the same partial twice is spreading it once. */
  lemma ApplyPatchIdempotent(c: TripContext, p: ContextPatch)
    ensures ApplyPatch(ApplyPatch(c, p), p) == ApplyPatch(c, p)
  {
  }

  /** Two updateContext calls in a row are one call with the later partial laid over the earlier. */
  lemma ApplyPatchThen(c: TripContext, p: ContextPatch, q: ContextPatch)
    ensures ApplyPatch(ApplyPatch(c, p), q) == ApplyPatch(c, ThenPatch(p, q))
  {
  }

  /** updatePosition and updateFuelLevel are updateContext with a one-field partial. */
  lemma SingleFieldUpdatesArePatches(c: TripContext, position: LatLng, level: real)
    ensures c.(currentPosition := Some(position)) == ApplyPatch(c, EmptyPatch.(currentPosition := Some(Some(position))))
    ensures c.(estimatedFuelRemaining := level) == ApplyPatch(c, EmptyPatch.(estimatedFuelRemaining := Some(level)))
  {
  }

  // ---------------------------------------------------------------------
  // The list updates of the recommendation and scheduled-stop actions
  // ---------------------------------------------------------------------

  /** `recommendations.map(r => r.id === id ? { ...r, dismissed: true } : r)`. */
  function MarkDismissed(recs: seq<Recommendation>, id: string): (r: seq<Recommendation>)
    ensures |r| == |recs|
    ensures forall i :: 0 <= i < |recs| ==> r[i] == if recs[i].id == id then recs[i].(dismissed := true) else recs[i]
  {
    if recs == [] then []
    else [if recs[0].id == id then recs[0].(dismissed := true) else recs[0]] + MarkDismissed(recs[1..], id)
  }

  lemma MarkDismissedIdempotent(recs: seq<Recommendation>, id: string)
    ensures MarkDismissed(MarkDismissed(recs, id), id) == MarkDismissed(recs, id)
  {
  }

  lemma MarkDismissedAbsent(recs: seq<Recommendation>, id: string)
    requires forall i :: 0 <= i < |recs| ==> recs[i].id != id
    ensures MarkDismissed(recs, id) == recs
  {
  }

  /** `recommendations.map(r => r.id === id ? { ...r, acceptedStopId: stopId } : r)`. */
  function MarkAccepted(recs: seq<Recommendation>, id: string, stopId: string): (r: seq<Recommendation>)
    ensures |r| == |recs|
    ensures forall i :: 0 <= i < |recs| ==>
              r[i] == if recs[i].id == id then recs[i].(acceptedStopId := Some(stopId)) else recs[i]
  {
    if recs == [] then []
    else [if recs[0].id == id then recs[0].(acceptedStopId := Some(stopId)) else recs[0]] + MarkAccepted(recs[1..], id, stopId)
  }

  /** Accepting again with another stop id overwrites the first: only the last acceptance is kept. */
  lemma MarkAcceptedLast(recs: seq<Recommendation>, id: string, first: string, second: string)
    ensures MarkAccepted(MarkAccepted(recs, id, first), id, second) == MarkAccepted(recs, id, second)
  {
  }

  /** The key of `recommendations.find(r => r.id === id)`. */
  function RecommendationId(r: Recommendation): string {
    r.id
  }

  /** The key of `stops.find(s => s.id === stopId)`. */
  function StopId(s: Stop): string {
    s.id
  }

  /** `rec?.stops.find(s => s.id === stopId)` for the first record with the id. */
  function AcceptedStop(recs: seq<Recommendation>, id: string, stopId: string): Option<Stop> {
    var rec := FindFirst(recs, RecommendationId, id);
    if rec.None? then None else FindFirst(rec.value.stops, StopId, stopId)
  }

  /**
   * A stop is accepted exactly when the first record with the id has a stop
   * with that stop id; it is then the first such stop of that record. Later
   * records with the same id are not searched.
   */
  lemma AcceptedStopSpec(recs: seq<Recommendation>, id: string, stopId: string)
    ensures var found := AcceptedStop(recs, id, stopId);
            && (found.Some? <==>
                  exists i :: 0 <= i < |recs| && recs[i].id == id &&
                    (forall j :: 0 <= j < i ==> recs[j].id != id) &&
                    exists k :: 0 <= k < |recs[i].stops| && recs[i].stops[k].id == stopId)
            && (found.Some? ==>
                  found.value.id == stopId &&
                  exists i, k :: 0 <= i < |recs| && recs[i].id == id &&
                    (forall j :: 0 <= j < i ==> recs[j].id != id) &&
                    0 <= k < |recs[i].stops| && found.value == recs[i].stops[k] &&
                    forall j :: 0 <= j < k ==> recs[i].stops[j].id != stopId)
  {
    var rec := FindFirst(recs, RecommendationId, id);
    if rec.Some? {
      var i :| 0 <= i < |recs| && recs[i] == rec.value && recs[i].id == id && forall j :: 0 <= j < i ==> recs[j].id != id;
      forall i' | 0 <= i' < |recs| && recs[i'].id == id && (forall j :: 0 <= j < i' ==> recs[j].id != id)
        ensures i' == i
      {
      }
      var s := FindFirst(rec.value.stops, StopId, stopId);
      if s.Some? {
        var k :| 0 <= k < |rec.value.stops| && rec.value.stops[k] == s.value && rec.value.stops[k].id == stopId &&
                 forall j :: 0 <= j < k ==> rec.value.stops[j].id != stopId;
        assert recs[i].stops[k] == s.value;
      }
    }
  }

  /** Whether a stop's id differs from `id` (the test of removeScheduledStop's filter). */
  function IdIsNot(id: string): Stop -> bool {
    (s: Stop) => s.id != id
  }

  /** `scheduledStops.filter(s => s.id !== id)`. */
  function RemoveStops(stops: seq<Stop>, id: string): seq<Stop> {
    Filter(stops, IdIsNot(id))
  }

  /** Every stop with the id goes; every other stop stays, as often as it was there. */
  lemma RemoveStopsSpec(stops: seq<Stop>, id: string)
    ensures forall s :: multiset(RemoveStops(stops, id))[s] == if s.id != id then multiset(stops)[s] else 0
    ensures forall s :: s in RemoveStops(stops, id) <==> s in stops && s.id != id
  {
    FilterCount(stops, IdIsNot(id));
    FilterMembers(stops, IdIsNot(id));
  }

  /** The stops that stay keep their order: removal works piece by piece. */
  lemma RemoveStopsAppend(a: seq<Stop>, b: seq<Stop>, id: string)
    ensures RemoveStops(a + b, id) == RemoveStops(a, id) + RemoveStops(b, id)
  {
    FilterAppend(a, b, IdIsNot(id));
  }

  /** Removing an id no stop has changes nothing. */
  lemma RemoveStopsAbsent(stops: seq<Stop>, id: string)
    requires forall s :: s in stops ==> s.id != id
    ensures RemoveStops(stops, id) == stops
  {
    FilterAll(stops, IdIsNot(id));
  }

  lemma RemoveStopsIdempotent(stops: seq<Stop>, id: string)
    ensures RemoveStops(RemoveStops(stops, id), id) == RemoveStops(stops, id)
  {
    RemoveStopsSpec(stops, id);
    RemoveStopsAbsent(RemoveStops(stops, id), id);
  }

  // ---------------------------------------------------------------------
  // The store
  // ---------------------------------------------------------------------

  class TripStoreState {
    var status: TripStatus
    var origin: Option<Location>
    var destination: Option<Location>
    var route: Option<RouteData>
    var isLoadingRoute: bool
    var routeError: Option<string>
    var context: TripContext
    var scheduledStops: seq<Stop>
    var recommendations: seq<Recommendation>
    var activePanel: Option<Panel>
    var selectedRecommendationId: Option<string>

    /** The context the store starts with and resetTrip restores. */
    const initialContext: TripContext

    function Snapshot(): TripState
      reads this
    {
      TripState(status, origin, destination, route, isLoadingRoute, routeError, context,
                scheduledStops, recommendations, activePanel, selectedRecommendationId)
    }

    /** The store as created when the module loads at `loadHour`. */
    constructor (loadHour: int)
      ensures initialContext == InitialContext(loadHour)
      ensures Snapshot() == InitialState(InitialContext(loadHour))
    {
      initialContext := InitialContext(loadHour);
      status := Planning;
      origin := None;
      destination := None;
      route := None;
      isLoadingRoute := false;
      routeError := None;
      context := InitialContext(loadHour);
      scheduledStops := [];
      recommendations := [];
      activePanel := Some(SetupPanel);
      selectedRecommendationId := None;
    }

    method SetOrigin(location: Option<Location>)
      modifies this
      ensures Snapshot() == old(Snapshot()).(origin := location)
    {
      origin := location;
    }

    method SetDestination(location: Option<Location>)
      modifies this
      ensures Snapshot() == old(Snapshot()).(destination := location)
    {
      destination := location;
    }

    /** Stores the route, clears the error and takes the route's length as the miles remaining. */
    method SetRoute(newRoute: RouteData)
      modifies this
      ensures Snapshot() == old(Snapshot()).(
                route := Some(newRoute),
                routeError := None,
                context := old(context).(estimatedMilesRemaining := newRoute.totalDistanceMiles))
    {
      route := Some(newRoute);
      routeError := None;
      context := context.(estimatedMilesRemaining := newRoute.totalDistanceMiles);
    }

    method SetRouteLoading(loading: bool)
      modifies this
      ensures Snapshot() == old(Snapshot()).(isLoadingRoute := loading)
    {
      isLoadingRoute := loading;
    }

    /** Stores the error and always ends loading. */
    method SetRouteError(error: Option<string>)
      modifies this
      ensures Snapshot() == old(Snapshot()).(routeError := error, isLoadingRoute := false)
    {
      routeError := error;
      isLoadingRoute := false;
    }

    /** From any status: active, the overview panel, and the time of day of `hour`. */
    method StartTrip(hour: int)
      modifies this
      ensures Snapshot() == old(Snapshot()).(
                status := Active,
                activePanel := Some(OverviewPanel),
                context := old(context).(timeOfDay := GetTimeOfDay(hour)))
    {
      status := Active;
      activePanel := Some(OverviewPanel);
      context := context.(timeOfDay := GetTimeOfDay(hour));
    }

    method PauseTrip()
      modifies this
      ensures Snapshot() == old(Snapshot()).(status := Paused)
    {
      status := Paused;
    }

    method ResumeTrip()
      modifies this
      ensures Snapshot() == old(Snapshot()).(status := Active)
    {
      status := Active;
    }

    /** From any status: completed, with no panel open. */
    method EndTrip()
      modifies this
      ensures Snapshot() == old(Snapshot()).(status := Completed, activePanel := None)
    {
      status := Completed;
      activePanel := None;
    }

    /** Back to the state the store started in, whatever came before. */
    method ResetTrip()
      modifies this
      ensures Snapshot() == InitialState(initialContext)
    {
      status := Planning;
      origin := None;
      destination := None;
      route := None;
      isLoadingRoute := false;
      routeError := None;
      context := initialContext;
      scheduledStops := [];
      recommendations := [];
      activePanel := Some(SetupPanel);
      selectedRecommendationId := None;
    }

    method UpdatePosition(position: LatLng)
      modifies this
      ensures Snapshot() == old(Snapshot()).(context := old(context).(currentPosition := Some(position)))
    {
      context := context.(currentPosition := Some(position));
    }

    /** Stores the level as given, without clamping. */
    method UpdateFuelLevel(level: real)
      modifies this
      ensures Snapshot() == old(Snapshot()).(context := old(context).(estimatedFuelRemaining := level))
    {
      context := context.(estimatedFuelRemaining := level);
    }

    method UpdateContext(partial: ContextPatch)
      modifies this
      ensures Snapshot() == old(Snapshot()).(context := ApplyPatch(old(context), partial))
    {
      context := ApplyPatch(context, partial);
    }

    method AddScheduledStop(stop: Stop)
      modifies this
      ensures Snapshot() == old(Snapshot()).(scheduledStops := old(scheduledStops) + [stop])
    {
      scheduledStops := scheduledStops + [stop];
    }

    method RemoveScheduledStop(stopId: string)
      modifies this
      ensures Snapshot() == old(Snapshot()).(scheduledStops := RemoveStops(old(scheduledStops), stopId))
    {
      scheduledStops := RemoveStops(scheduledStops, stopId);
    }

    /** Replaces the list wholesale; nothing checks it is a reordering of the old one. */
    method ReorderScheduledStops(stops: seq<Stop>)
      modifies this
      ensures Snapshot() == old(Snapshot()).(scheduledStops := stops)
    {
      scheduledStops := stops;
    }

    /** Appends an open, undismissed record and opens the recommendation panel. */
    method AddRecommendation(
      category: StopCategory, trigger: RecommendationTrigger, triggerReason: string, stops: seq<Stop>,
      id: string, now: int)
      modifies this
      ensures Snapshot() == old(Snapshot()).(
                recommendations := old(recommendations) + [Recommendation(id, category, trigger, triggerReason, stops, now, false, None)],
                activePanel := Some(RecommendationPanel))
    {
      recommendations := recommendations + [Recommendation(id, category, trigger, triggerReason, stops, now, false, None)];
      activePanel := Some(RecommendationPanel);
    }

    method DismissRecommendation(recommendationId: string)
      modifies this
      ensures Snapshot() == old(Snapshot()).(recommendations := MarkDismissed(old(recommendations), recommendationId))
    {
      recommendations := MarkDismissed(recommendations, recommendationId);
    }

    /**
     * Marks every record with the id as accepted with `stopId`, found or not,
     * and schedules the stop when the first such record has it.
     */
    method AcceptRecommendation(recommendationId: string, stopId: string)
      modifies this
      ensures var found := AcceptedStop(old(recommendations), recommendationId, stopId);
              Snapshot() == old(Snapshot()).(
                recommendations := MarkAccepted(old(recommendations), recommendationId, stopId),
                scheduledStops := if found.Some? then old(scheduledStops) + [found.value] else old(scheduledStops))
    {
      var rec := FindFirst(recommendations, RecommendationId, recommendationId);
      var acceptedStop := if rec.Some? then FindFirst(rec.value.stops, StopId, stopId) else None;
      recommendations := MarkAccepted(recommendations, recommendationId, stopId);
      if acceptedStop.Some? {
        scheduledStops := scheduledStops + [acceptedStop.value];
      }
    }

    method ClearRecommendations()
      modifies this
      ensures Snapshot() == old(Snapshot()).(recommendations := [])
    {
      recommendations := [];
    }

    method SetActivePanel(panel: Option<Panel>)
      modifies this
      ensures Snapshot() == old(Snapshot()).(activePanel := panel)
    {
      activePanel := panel;
    }

    method SetSelectedRecommendation(id: Option<string>)
      modifies this
      ensures Snapshot() == old(Snapshot()).(selectedRecommendationId := id)
    {
      selectedRecommendationId := id;
    }
  }
}
