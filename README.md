# cartrip: a verified model of the trip planner's core

cartrip plans a road trip. It shows the route, keeps a running picture of the
drive (time at the wheel, fuel left, position) and proposes stops: fuel
stations, rest stops and hotels in range. This project models the parts of it
that decide things, in Dafny, and proves what they promise:

- **The recommendation engine** (`src/lib/recommendation.ts`, module
  `Recommend`). Candidate stops are measured from the current position. Those
  within the fuel range (inclusive) are kept and stably sorted nearest first,
  and at most three are offered per category. Fuel is offered whenever a
  station is in range. Rest stops are offered once the elapsed driving time
  reaches the rest frequency. Hotels are offered only at night.
  `getRecommendations` pushes at most one recommendation per category, in the
  order fuel, rest, hotel.
- **Its Python twin** (`src/lib/recommendation.py`, module `RecommendPy`). It
  runs the same filter with a loop, an in-place stable sort and a slice of ten.
- **The shared list algebra** (module `Lists`). This holds the filter, the
  stable sort by a real key and the slice, with their permutation,
  sortedness, stability and nearest-first properties.
- **The utilities** (`src/lib/utils.ts`):
  - module `Utils`: the vehicle range model, the hour-to-bucket
    classification, `formatDuration`, `formatPriceLevel`, `clamp` and `cn`;
  - module `Polyline`: the Google Encoded Polyline Algorithm decoder, as an
    imperative loop proved equal to a functional decoder, which is in turn
    proved to invert the encoder.
- **The trip store** (`src/store/tripStore.ts`, module `TripStore`). This is a
  class whose actions replace its fields. Each action states the whole new
  state in terms of the old one, so "nothing else changes" is part of every
  contract.
- **The user store** (`src/store/userStore.ts`, module `UserStore`). This is a
  class with partial-record merges, nested merges and a reset to the defaults.
- **Place normalisation** (`src/app/api/places/route.ts`, module `Places`).
  This covers the category to place-type table, the per-category attributes,
  and the shaping of search results into stops.

The records of `src/types/index.ts` are module `Types`. The constants of
`src/lib/constants.ts` are module `Constants`. Module `Wrappers` holds
`Option`.

Numbers:
- JavaScript and Python numbers are `real`.
- Price levels are `nat`.
- Timestamps are `int`.
- Polyline coordinates are integers in units of 1e-5 degree.

Outside inputs become parameters:
- the great-circle distance is a function parameter (`dist`, `haversine`);
- the hour of `new Date()` is `hour`, and the timestamp is `now`;
- every `generateId()` is an id parameter;
- the photo URL, which embeds the API key, is `photoUrl`.

## Model

| member | source | states |
|---|---|---|
| `Lists.Filter` | src/lib/recommendation.ts:37 | `.filter` returns no more elements than it is given; its content and order in `Lists.FilterCount`, `Lists.FilterMembers` and `Lists.FilterAppend` |
| `Lists.FilterCount` | src/lib/recommendation.ts:37 | the filter keeps each accepted element exactly as often as it occurs and drops every other |
| `Lists.FilterAppend` | src/store/tripStore.ts:150 | filtering distributes over concatenation, so kept elements keep their relative order |
| `Lists.FilterMembers` | src/lib/recommendation.ts:37 | an element is in the result iff it is in the input and accepted |
| `Lists.FilterAll` | src/store/tripStore.ts:150 | a filter that accepts every element returns the list unchanged |
| `Lists.FilterSnoc` | src/lib/recommendation.py:33-38 | filtering a list grown by one element at its end, as the appending loop does |
| `Lists.Insert` | src/lib/recommendation.ts:38 | insertion adds exactly one element: the length grows by one and the multiset gains `x` |
| `Lists.SortBy` | src/lib/recommendation.ts:38 | the sort is a permutation of its input (same length, same multiset) |
| `Lists.InsertSorted` | src/lib/recommendation.ts:38 | inserting into a sorted list keeps it sorted |
| `Lists.SortBySorted` | src/lib/recommendation.ts:38 | the sort's output is in non-decreasing key order |
| `Lists.InsertWithKey` | src/lib/recommendation.py:41 | insertion places the new element after every earlier element of equal key |
| `Lists.SortByStable` | src/lib/recommendation.py:41 | stability: for every key value, the elements with that key appear in input order |
| `Lists.WithKeyAtMost` | src/lib/recommendation.ts:37 | the inclusive range filter keeps each key's elements whole and in order, or drops them all |
| `Lists.WithinSpec` | src/lib/recommendation.ts:32-38 | filter-then-sort keeps exactly the in-range elements with their multiplicity, sorted, ties in input order |
| `Lists.Take` | src/lib/recommendation.ts:46-49 | `slice(0, n)` is a prefix of length `min(n, length)` |
| `Lists.TakeNearest` | src/lib/recommendation.ts:46-49 | a prefix of a sorted list is sorted, and nothing left out is nearer than anything taken |
| `Lists.FindFirst` | src/store/tripStore.ts:182-183 | `find` by id: None iff no element has the key; otherwise the first element with it, none before it having the key |
| `Recommend.Measure` | src/lib/recommendation.ts:33-36 | definition (the `.map` pairing each stop with its distance, in input order); property in `Recommend.FilterByRangeSpec` and `Recommend.FilterByRangeMembers` |
| `Recommend.FilterByRange` | src/lib/recommendation.ts:27-39 | definition (measure, keep distance <= maximum, stable sort by distance); property in `Recommend.FilterByRangeSpec` and `Recommend.FilterByRangeMembers` |
| `Recommend.FilterByRangeSpec` | src/lib/recommendation.ts:27-39 | filterByRange keeps exactly the stops at distance <= the maximum (inclusive), as a permutation, sorted nearest first, ties in input order |
| `Recommend.FilterByRangeMembers` | src/lib/recommendation.ts:27-39 | every returned stop is a candidate, at its measured distance, within the maximum |
| `Recommend.RecommendGas` | src/lib/recommendation.ts:41-50 | a prefix of filterByRange's output of length min(3, its length), with the fuel range as radius |
| `Recommend.RecommendRest` | src/lib/recommendation.ts:52-67 | [] when elapsed < rest frequency; from equality on, the 3-prefix of filterByRange |
| `Recommend.RecommendHotel` | src/lib/recommendation.ts:69-83 | [] when it is not night; otherwise the 3-prefix of filterByRange |
| `Recommend.NearestOffered` | src/lib/recommendation.ts:46-49 | no stop left out of a recommendation is nearer than a stop offered |
| `Recommend.IsNight` | src/lib/recommendation.ts:99 | for hours 0..23, night is exactly 20-23 and 0-4 |
| `Recommend.Round` | src/lib/recommendation.ts:132 | `Math.round` gives the integer n with n - 0.5 <= x < n + 0.5 |
| `Recommend.StopsOf` | src/lib/recommendation.ts:113 | definition (the stops of the ranked list, in order, distance dropped); property in `Recommend.NearestOffered` and `Recommend.GetRecommendations` |
| `Recommend.FuelRecommendation` | src/lib/recommendation.ts:103-117 | definition (the fuel record literal, `low_fuel` iff fuel <= 0.25); property in `Recommend.FuelPart` |
| `Recommend.RestRecommendation` | src/lib/recommendation.ts:128-137 | definition (the rest record literal with the rounded-minutes reason); property in `Recommend.RestPart` |
| `Recommend.DrivingReason` | src/lib/recommendation.ts:132 | definition (the rest reason with the rounded minutes); property in `Recommend.RestPart` and `Recommend.Round` |
| `Recommend.HotelRecommendation` | src/lib/recommendation.ts:146-156 | definition (the hotel record literal); property in `Recommend.HotelPart` |
| `Recommend.ThreePushes` | src/lib/recommendation.ts:101-157 | three guarded pushes give at most one record per category, in the order fuel, rest, hotel, each present iff its guard held |
| `Recommend.PushesOffered` | src/lib/recommendation.ts:96-159 | the pushed list meets everything `Offered` states |
| `Recommend.FuelPart` | src/lib/recommendation.ts:101-118 | fuel is present iff a station is in range; trigger `low_fuel` iff fuel <= 0.25, else `user_request`, with the matching reason |
| `Recommend.RestPart` | src/lib/recommendation.ts:120-138 | rest is present iff elapsed >= rest frequency and a rest stop is in range; trigger `driving_duration` and the rounded-minutes reason |
| `Recommend.HotelPart` | src/lib/recommendation.ts:140-157 | hotel is present iff it is night and a hotel is in range; trigger `evening_lodging` and the late-hour reason |
| `Recommend.PushIfAny` | src/lib/recommendation.ts:102-103 | the record is appended exactly when the list of stops found is non-empty, and the list is otherwise unchanged |
| `Recommend.GetRecommendations` | src/lib/recommendation.ts:85-160 | at most 3 records in the order fuel, rest, hotel, each category at most once, each with 1 to 3 stops, undismissed, with no accepted stop, stamped `now`, gates and triggers as above |
| `RecommendPy.Matches` | src/lib/recommendation.py:34-38 | definition (one (name, distance, lat, lon, type) tuple per point, in input order); property in `RecommendPy.NearestSpec` and `RecommendPy.NearestMembers` |
| `RecommendPy.MatchOf` | src/lib/recommendation.py:38 | definition (the appended (name, distance, lat, lon, type) tuple); property in `RecommendPy.NearestMembers` |
| `RecommendPy.Nearest` | src/lib/recommendation.py:33-42 | definition (in-range tuples, sorted by distance, first 10); property in `RecommendPy.NearestSpec`, `RecommendPy.NearestMembers` and `RecommendPy.NearestWithin` |
| `RecommendPy.NearestSpec` | src/lib/recommendation.py:40-42 | at most 10 results, a prefix of the in-range tuples sorted by distance, none left out nearer than one kept, ties in input order |
| `RecommendPy.NearestMembers` | src/lib/recommendation.py:33-38 | each result is the tuple of an input point, within the fuel range |
| `RecommendPy.NearestWithin` | src/lib/recommendation.py:31-42 | the append loop, the stable sort and the slice compute `Nearest` |
| `RecommendPy.RecommendGas` | src/lib/recommendation.py:30-42 | returns `Nearest` of the gas stations |
| `RecommendPy.RecommendRest` | src/lib/recommendation.py:45-59 | [] when hours driven < threshold; from equality on, `Nearest` of the rest stops |
| `RecommendPy.RecommendHotel` | src/lib/recommendation.py:62-75 | [] exactly when `is_night` is the string "no"; otherwise `Nearest` of the hotels |
| `Utils.CalculateRemainingRange` | src/lib/utils.ts:3-6 | definition (gallons in the tank times mpg); property in `Utils.RemainingRangeIsLinear` and `Utils.DefaultVehicleRange` |
| `Utils.IsFuelLow` | src/lib/utils.ts:8-10 | definition (level <= buffer, boundary low); property in `Utils.FuelLowIffRangeWithinBuffer` |
| `Utils.RemainingRangeIsLinear` | src/lib/utils.ts:3-6 | the remaining range at level k is k times the full-tank range |
| `Utils.FuelLowIffRangeWithinBuffer` | src/lib/utils.ts:8-10 | for a positive tank and mpg, fuel is low iff the range is at most the buffer's range; the boundary counts as low |
| `Utils.DefaultVehicleRange` | src/lib/utils.ts:3-6 | a full default tank (14 gal, 30 mpg) reaches 420 miles and is not low |
| `Utils.LowFuelScenario` | src/lib/utils.ts:3-10 | 10% of the default tank is 42 miles and is low against the 20% buffer |
| `Utils.GetTimeOfDay` | src/lib/utils.ts:12-21 | morning iff 5-10, midday iff 11-13, afternoon iff 14-16, evening iff 17-20, night otherwise |
| `Utils.NatToString` | src/lib/utils.ts:29 | a non-empty run of decimal digits, with no leading zero except for 0 itself |
| `Utils.NatToStringRoundTrip` | src/lib/utils.ts:29 | the decimal digits read back as the number |
| `Utils.IntToString` | src/lib/utils.ts:29 | definition (`${n}` of a whole number, with '-' when negative); property in `Utils.NatToStringRoundTrip` and `Utils.FormatDurationRoundTrip` |
| `Utils.FormatDuration` | src/lib/utils.ts:28-34 | definition for whole minutes ("m min", "h hr", "h hr r min"); property in `Utils.FormatDurationRoundTrip` |
| `Utils.FormatDurationRoundTrip` | src/lib/utils.ts:28-34 | "m min" / "h hr" / "h hr r min" text reads back as the same whole number of minutes |
| `Utils.Repeat` | src/lib/utils.ts:38 | `"$".repeat(n)` is n copies of the character |
| `Utils.FormatPriceLevel` | src/lib/utils.ts:36-39 | definition ("N/A" for null, else level + 1 dollar signs); property in `Utils.FormatPriceLevelRoundTrip` |
| `Utils.FormatPriceLevelRoundTrip` | src/lib/utils.ts:36-39 | "N/A" for null, otherwise level+1 dollar signs, read back as the same level |
| `Utils.Clamp` | src/lib/utils.ts:62-64 | inside [min, max] when min <= max; unchanged when already inside; max when the bounds are crossed |
| `Utils.ClampIdempotent` | src/lib/utils.ts:62-64 | clamping twice is clamping once |
| `Utils.Kept` | src/lib/utils.ts:71 | no more strings than arguments, none of them empty, and none at all iff no argument is a non-empty string; the content is fixed in `Utils.KeptSpec` |
| `Utils.KeptSpec` | src/lib/utils.ts:71 | `filter(Boolean)` keeps exactly the truthy arguments in order: as many strings as truthy arguments, the i-th being the value of the i-th truthy argument |
| `Utils.KeptMembers` | src/lib/utils.ts:71 | a string is kept iff it is an argument and non-empty |
| `Utils.Join` | src/lib/utils.ts:71 | definition (`join(" ")`: the words with one space between neighbours); property in `Utils.CnEmptyIff` and `Utils.CnAppend` |
| `Utils.Cn` | src/lib/utils.ts:70-72 | definition (the kept classes joined by one space); property in `Utils.CnEmptyIff` and `Utils.CnAppend` |
| `Utils.CnEmptyIff` | src/lib/utils.ts:70-72 | `cn` is "" iff no argument is a non-empty string |
| `Utils.CnAppend` | src/lib/utils.ts:70-72 | splitting `cn`'s arguments splits its text at one space, or none when a side is empty |
| `Polyline.ZigZag` | src/lib/utils.ts:94 | definition (`result & 1 ? ~(result >> 1) : result >> 1`); property in `Polyline.ZigZagRoundTrip` |
| `Polyline.GroupAt` | src/lib/utils.ts:90-93 | definition (`charCodeAt(index) - 63` masked with 0x1f, continuing while >= 0x20; past the end NaN gives group 0 and no continuation); property in `Polyline.ReadStep` and `Polyline.ReadEncodedVarint` |
| `Polyline.ReadVarint` | src/lib/utils.ts:89-93 | a value read ends past its first group and at most one character past the text |
| `Polyline.ReadVarintBound` | src/lib/utils.ts:89-93 | a value of at most n groups is below 2^(5n), so six groups stay within 30 bits |
| `Polyline.ReadStep` | src/lib/utils.ts:89-93 | one turn of the do-while adds the group's 5 bits at `shift`; while the continuation bit is set the rest of the value follows 5 bits higher |
| `Polyline.ReadValue` | src/lib/utils.ts:85-93 | the loop returns the value and the index after its last group |
| `Polyline.ReadPair` | src/lib/utils.ts:85-103 | the two do-while loops read the next latitude and longitude deltas of the text and leave the index after them |
| `Polyline.DecodeStep` | src/lib/utils.ts:84-106 | one turn of the while loop keeps the points pushed, followed by the running sums of the deltas still to read, equal to the whole decoding |
| `Polyline.Deltas` | src/lib/utils.ts:84-103 | definition (the latitude and longitude deltas of the text, pair by pair, None past six groups); property in `Polyline.DeltasOfEncode` and `Polyline.ReadPair` |
| `Polyline.RunningSums` | src/lib/utils.ts:94-105 | one point per delta; definition (`lat +=`, `lng +=`, `points.push`); property in `Polyline.DecodedPointIsPrefixSum` and `Polyline.RunningSumsOfDifferences` |
| `Polyline.Decode` | src/lib/utils.ts:78-109 | definition (the running sums of the deltas, from 0, 0); property in `Polyline.DecodePolyline`, `Polyline.DecodedPointIsPrefixSum` and `Polyline.DecodeEncodePoints` |
| `Polyline.DecodePolyline` | src/lib/utils.ts:78-109 | the decoder loop returns `Decode(encoded)`: one point per lat/lng pair, [] for "" |
| `Polyline.DecodedPointIsPrefixSum` | src/lib/utils.ts:94-105 | decoded point i is the sum of the first i+1 zig-zag-decoded deltas |
| `Polyline.ZigZagRoundTrip` | src/lib/utils.ts:94 | zig-zag decoding inverts the encoding of a signed delta |
| `Polyline.ReadEncodedVarint` | src/lib/utils.ts:89-93 | an encoded value reads back as itself, wherever it sits in a text |
| `Polyline.DeltasOfEncode` | src/lib/utils.ts:84-106 | decoding the text of delta pairs gives back those deltas |
| `Polyline.RunningSumsOfDifferences` | src/lib/utils.ts:94-105 | summing the differences of points gives back the points |
| `Polyline.DecodeEncodePoints` | src/lib/utils.ts:74-109 | decoding an encoded polyline gives back its points |
| `TripStore.InitialContext` | src/store/tripStore.ts:58-68 | 0 elapsed, fuel 1.0, 0 miles, no position, segment 0, no last stop, time of day of the load hour |
| `TripStore.InitialState` | src/store/tripStore.ts:70-81 | definition (planning, no origin, destination or route, given context, no stops or recommendations, setup panel); property in `TripStore.TripStoreState.constructor` and `TripStore.TripStoreState.ResetTrip` |
| `TripStore.ApplyPatch` | src/store/tripStore.ts:138-141 | definition (`{ ...context, ...partial }`); property in `TripStore.ApplyPatchThen`, `TripStore.ApplyPatchIdempotent` and `TripStore.EmptyPatchKeeps` |
| `TripStore.ApplyPatchThen` | src/store/tripStore.ts:138-141 | two updateContext calls are one with the later partial laid over the earlier |
| `TripStore.ApplyPatchIdempotent` | src/store/tripStore.ts:138-141 | spreading the same partial twice is spreading it once |
| `TripStore.EmptyPatchKeeps` | src/store/tripStore.ts:138-141 | an empty partial changes nothing |
| `TripStore.SingleFieldUpdatesArePatches` | src/store/tripStore.ts:128-136 | updatePosition and updateFuelLevel are updateContext with a one-field partial |
| `TripStore.MarkDismissed` | src/store/tripStore.ts:173-178 | same length and order; exactly the records with the id get `dismissed`, others are untouched |
| `TripStore.MarkDismissedIdempotent` | src/store/tripStore.ts:173-178 | dismissing twice is dismissing once |
| `TripStore.MarkDismissedAbsent` | src/store/tripStore.ts:173-178 | dismissing an absent id changes nothing |
| `TripStore.MarkAccepted` | src/store/tripStore.ts:185-187 | exactly the records with the id get `acceptedStopId := stopId`, whether or not they hold that stop |
| `TripStore.MarkAcceptedLast` | src/store/tripStore.ts:185-187 | a second acceptance overwrites the first |
| `TripStore.AcceptedStop` | src/store/tripStore.ts:180-183 | definition (the first record with the id, then its first stop with the stop id); property in `TripStore.AcceptedStopSpec` |
| `TripStore.AcceptedStopSpec` | src/store/tripStore.ts:180-192 | a stop is found iff the first record with the id holds one with the stop id; it is then the first stop of that first record with the stop id |
| `TripStore.RemoveStops` | src/store/tripStore.ts:148-151 | definition (`filter(s => s.id !== id)`); property in `TripStore.RemoveStopsSpec` and the lemmas below |
| `TripStore.RemoveStopsSpec` | src/store/tripStore.ts:148-151 | every stop with the id goes; every other stays as often as it was there |
| `TripStore.RemoveStopsAppend` | src/store/tripStore.ts:148-151 | the remaining stops keep their order |
| `TripStore.RemoveStopsAbsent` | src/store/tripStore.ts:148-151 | removing an absent id changes nothing |
| `TripStore.RemoveStopsIdempotent` | src/store/tripStore.ts:148-151 | removing twice is removing once |
| `TripStore.TripStoreState.constructor` | src/store/tripStore.ts:70-81 | planning, no origin, destination or route, initial context, no stops or recommendations, setup panel |
| `TripStore.TripStoreState.SetOrigin` | src/store/tripStore.ts:83 | only the origin changes |
| `TripStore.TripStoreState.SetDestination` | src/store/tripStore.ts:84 | only the destination changes |
| `TripStore.TripStoreState.SetRoute` | src/store/tripStore.ts:86-94 | route set, error cleared, miles remaining = route total; no other context field changes |
| `TripStore.TripStoreState.SetRouteLoading` | src/store/tripStore.ts:96 | only the loading flag changes |
| `TripStore.TripStoreState.SetRouteError` | src/store/tripStore.ts:97 | the error is stored and loading is forced off |
| `TripStore.TripStoreState.StartTrip` | src/store/tripStore.ts:99-107 | from any status: active, overview panel, time of day of `hour` |
| `TripStore.TripStoreState.PauseTrip` | src/store/tripStore.ts:109 | from any status: paused, nothing else changes |
| `TripStore.TripStoreState.ResumeTrip` | src/store/tripStore.ts:110 | from any status: active, nothing else changes |
| `TripStore.TripStoreState.EndTrip` | src/store/tripStore.ts:111 | from any status: completed, with no panel |
| `TripStore.TripStoreState.ResetTrip` | src/store/tripStore.ts:113-126 | from any state back to the initial state, with the context captured at load |
| `TripStore.TripStoreState.UpdatePosition` | src/store/tripStore.ts:128-131 | only the context's position changes |
| `TripStore.TripStoreState.UpdateFuelLevel` | src/store/tripStore.ts:133-136 | only the context's fuel changes, to the level as given, unclamped |
| `TripStore.TripStoreState.UpdateContext` | src/store/tripStore.ts:138-141 | the context becomes the old one with the supplied fields laid over it |
| `TripStore.TripStoreState.AddScheduledStop` | src/store/tripStore.ts:143-146 | the stop is appended at the end |
| `TripStore.TripStoreState.RemoveScheduledStop` | src/store/tripStore.ts:148-151 | every stop with the id is removed |
| `TripStore.TripStoreState.ReorderScheduledStops` | src/store/tripStore.ts:153 | the list is replaced wholesale, unchecked |
| `TripStore.TripStoreState.AddRecommendation` | src/store/tripStore.ts:155-171 | one undismissed record with no accepted stop is appended and the recommendation panel opens |
| `TripStore.TripStoreState.DismissRecommendation` | src/store/tripStore.ts:173-178 | recommendations become `MarkDismissed` of the old ones |
| `TripStore.TripStoreState.AcceptRecommendation` | src/store/tripStore.ts:180-192 | records with the id are marked accepted; the stop is scheduled iff the first such record holds it |
| `TripStore.TripStoreState.ClearRecommendations` | src/store/tripStore.ts:194 | the recommendations become empty |
| `TripStore.TripStoreState.SetActivePanel` | src/store/tripStore.ts:196 | only the active panel changes |
| `TripStore.TripStoreState.SetSelectedRecommendation` | src/store/tripStore.ts:197 | only the selected id changes |
| `UserStore.MergeVehicle` | src/store/userStore.ts:45-48 | definition (the spread: each supplied vehicle field overwrites, every other kept); property in `UserStore.MergeVehicleLaws` |
| `UserStore.MergeVehicleLaws` | src/store/userStore.ts:45-48 | an empty partial is the identity, merging twice is merging once, two merges compose, a full partial replaces |
| `UserStore.MergePreferences` | src/store/userStore.ts:73-76 | definition (the spread: each supplied preference overwrites, a supplied nested record replaces it whole); property in `UserStore.MergePreferencesLaws` |
| `UserStore.MergePreferencesLaws` | src/store/userStore.ts:73-76 | identity, idempotence and composition of preference merges |
| `UserStore.MergeDining` | src/store/userStore.ts:96-102 | definition (the inner dining spread); property in `UserStore.NestedMergeLaws` |
| `UserStore.MergeLodging` | src/store/userStore.ts:104-110 | definition (the inner lodging spread); property in `UserStore.NestedMergeLaws` |
| `UserStore.NestedMergeLaws` | src/store/userStore.ts:96-110 | empty nested partials are the identity; nested merges are idempotent |
| `UserStore.NestedSettersArePreferencePatches` | src/store/userStore.ts:96-110 | the nested setters are setPreferences with only the merged nested record supplied |
| `UserStore.VehicleSettersArePatches` | src/store/userStore.ts:50-71 | each single-field vehicle setter is setVehicle with that one field |
| `UserStore.PreferenceSettersArePatches` | src/store/userStore.ts:78-120 | each single-field preference setter is setPreferences with that one field |
| `UserStore.UserProfileStore.constructor` | src/store/userStore.ts:41-43 | default vehicle, default preferences, setup not completed |
| `UserStore.UserProfileStore.SetVehicle` | src/store/userStore.ts:45-48 | the vehicle is merged with the partial; preferences and flag unchanged |
| `UserStore.UserProfileStore.SetFuelType` | src/store/userStore.ts:50-51 | only the fuel type changes |
| `UserStore.UserProfileStore.SetTankCapacity` | src/store/userStore.ts:53-56 | only the tank capacity changes |
| `UserStore.UserProfileStore.SetFuelEfficiency` | src/store/userStore.ts:58-61 | only the efficiency changes |
| `UserStore.UserProfileStore.SetCurrentFuelLevel` | src/store/userStore.ts:63-66 | only the fuel level changes, to any number given |
| `UserStore.UserProfileStore.SetSafetyBuffer` | src/store/userStore.ts:68-71 | only the safety buffer changes |
| `UserStore.UserProfileStore.SetPreferences` | src/store/userStore.ts:73-76 | the preferences are merged with the partial; vehicle and flag unchanged |
| `UserStore.UserProfileStore.SetMaxDrivingDuration` | src/store/userStore.ts:78-84 | only the maximum driving duration changes |
| `UserStore.UserProfileStore.SetRestFrequency` | src/store/userStore.ts:86-89 | only the rest frequency changes |
| `UserStore.UserProfileStore.SetFuelBudget` | src/store/userStore.ts:91-94 | only the fuel budget changes |
| `UserStore.UserProfileStore.SetDiningPreferences` | src/store/userStore.ts:96-102 | the dining record is merged; other preference fields unchanged |
| `UserStore.UserProfileStore.SetLodgingPreferences` | src/store/userStore.ts:104-110 | the lodging record is merged; other preference fields unchanged |
| `UserStore.UserProfileStore.SetPreferredBrands` | src/store/userStore.ts:112-115 | only the preferred brands change |
| `UserStore.UserProfileStore.SetAvoidHighways` | src/store/userStore.ts:117-120 | only the avoid-highways flag changes |
| `UserStore.UserProfileStore.CompleteSetup` | src/store/userStore.ts:122 | the flag is set, nothing else changes (so a second call changes nothing) |
| `UserStore.UserProfileStore.ResetProfile` | src/store/userStore.ts:124-129 | from any state: default vehicle and preferences, setup not completed |
| `Places.PlaceType` | src/app/api/places/route.ts:7-12 | definition (the category to place-type table); property in `Places.PlaceTypeRoundTrip` |
| `Places.PlaceTypeRoundTrip` | src/app/api/places/route.ts:7-12 | fuel→gas_station, restaurant→restaurant, rest→park, hotel→lodging, one-to-one |
| `Places.CuisineTypes` | src/app/api/places/route.ts:125-133 | definition (the types outside the four generic ones, [] when missing); property in `Places.CuisineTypesSpec` |
| `Places.CuisineTypesSpec` | src/app/api/places/route.ts:125-133 | the types other than the four generic ones, with multiplicity and in the original order; [] when types are missing |
| `Places.BuildAttributes` | src/app/api/places/route.ts:110-154 | the attributes' category tag is the requested category |
| `Places.BuildAttributesSpec` | src/app/api/places/route.ts:114-153 | brand is the name or "Unknown" when missing or empty; price range reads back as the level; picnic iff "park"; restrooms, no vending; 3-star hotels |
| `Places.PhotoUrls` | src/app/api/places/route.ts:89-94 | at most 3 photos, the URLs of the first references in order |
| `Places.PlaceToStop` | src/app/api/places/route.ts:64-97 | definition (the stop literal built from one result); property in `Places.PlacesToStopsSpec` |
| `Places.PlacesToStops` | src/app/api/places/route.ts:62-98 | definition (the stops of at most the first 10 results, in order); property in `Places.PlacesToStopsSpec` |
| `Places.PlacesToStopsSpec` | src/app/api/places/route.ts:62-98 | at most 10 stops, ids from place ids, the requested category with matching attributes, zero detour, rating/price as given or null, at most 3 photos |

## Left out

- The great-circle distance (`haversineDistance`, Python `haversine`) is floating-point trigonometry. It is a parameter, and nothing is assumed about it (no symmetry, no zero distance).
- `new Date()` and `generateId()` read the clock and randomness. They are parameters: the hour, a timestamp and one id per record.
- `formatDistance` and `formatRating` depend on `toFixed` float formatting and are not modelled.
- `Utils.FormatDuration`: modelled for whole minutes only, where `Math.round` is the identity. Fractional minutes are not modelled.
- `Polyline.DecodePolyline`: requires every value to fit in six 5-bit groups. This keeps the source's 32-bit `<<`, `|` and `>>` exact, so longer values and their 32-bit wrap-around are not modelled.
- `Polyline.DecodePolyline`: one character stands for one UTF-16 code unit. Characters outside the Basic Multilingual Plane are not modelled as surrogate pairs.
- `Polyline.DecodePolyline`: the final division by 1e5 is not modelled; points stay in units of 1e-5 degree.
- `charCodeAt` past the end of the text gives NaN. That case is modelled as a group of 0 that does not continue, so a text with an unpaired latitude still decodes, as the source does.
- Numbers are exact reals. IEEE-754 rounding, NaN and infinities in distances, fuel levels and ranges are not modelled.
- `Recommend.StopsOf`: the `_distance` field that filterByRange attaches stays on the stops the source stores in a recommendation. The model stores plain stops and drops it.
- Price levels are natural numbers. Negative or fractional `price_level` values are not modelled.
- A `Partial<T>` field explicitly set to `undefined` overwrites the field with `undefined` in the source's spread. The model treats it as not supplied.
- The `persist` middleware of the user store (browser storage) and the zustand `create`/`set` plumbing are not modelled. Each store is a plain class.
- The API route handlers are not modelled: the fetch, the request validation, and the error responses of the places, directions, weather, geocode and autocomplete routes. Building the photo URL is the parameter `photoUrl`.
- `load_pois` and `src/lib/main.py` do CSV file reading and console I/O and are not part of this model.
- The React components, the map and the styling are UI and are not part of this model.
