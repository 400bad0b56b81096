# Waypoint navigation app: a Dafny model of its own logic

The app is an Android navigation front end built on vendor map, navigation and
search SDKs. This project models the parts that are the app's own logic, and
proves properties of them:

- **Trip optimization** (`Commons.kt`). The payload builder turns stop features
  into `locations` and `services`. The start and end sentinels ("スタート", "エンド")
  are locations but never services. The submission response decides whether
  polling starts. Each poll response is either "processing" (poll the same job
  again) or terminal (read `routes[0].stops`). The stops are then translated
  into a route request. The waypoint names are joined with ';', and no ';' is
  written while the accumulated string is still empty.
- **Commons state**: the travel-profile index cycling over driving, cycling and
  walking, with its icon and isochrone mappings. Also the destination-history
  cell that router callbacks set or clear, and the fixed rotation that
  `requestRouteByOptimization` applies to the waypoints.
- **Duplicate-coordinate spreader** (`POISearcher.kt`). `CoordinateFixer.fix`
  moves the k-th occurrence of a coordinate by k - 1 offsets. `onResults`
  builds one annotation entry per search result, indexed in result order.
- **Focus bookkeeping** (`ViewHelper.kt`). Scrolling the card list swaps the
  focused result's regular marker for a red one and restores the previous one.
  `removeAllSearchedLocations` resets everything. Also the card texts of
  `onBindViewHolder`, `getItemCount`, and the bounded `addRandomPoints` loop.

Coordinates are `Point(lon, lat)`, GeoJSON positions (section 3.1.1 of RFC
7946), written as integers counted in units of 1e-5 degree. That unit is the
fixer's offset, so a shift by k offsets is an exact integer addition. The map
SDK's annotation managers are modelled as a class holding the set of live
annotations by id. HTTP responses are records, and the optimization service is
a pair of function parameters: `submit` answers a payload, and `server(id, k)`
answers the k-th poll of job `id`.

Files: `basics.dfy` (Option, Result, counting, GeoJSON features),
`commons_*.dfy` (Commons.kt), `poi_searcher.dfy` (POISearcher.kt) and
`view_*.dfy` (ViewHelper.kt).

## Model

| member | source | states |
|---|---|---|
| OptimizationPayload.BuildPayload | app/src/main/java/com/mapbox/Commons.kt:177-193 | The payload is built iff every feature has a "comment"; `locations` keeps the template's entries and then gets one entry per feature, in input order, named by its comment with its coordinates unchanged; `services` is the template's plus `ServicesFor` of the comments. |
| OptimizationPayload.ServicesCount | app/src/main/java/com/mapbox/Commons.kt:180-193 | `services` grows by the number of labels minus the number of sentinel labels. |
| OptimizationPayload.ServiceMembership | app/src/main/java/com/mapbox/Commons.kt:187-192 | A service is added exactly for a label that occurs and is not "スタート" or "エンド", and its name and location both equal that label. |
| OptimizationPayload.ServicesForAppend | app/src/main/java/com/mapbox/Commons.kt:180-193 | Services follow input order: the services of a concatenation are the concatenation of the services. |
| OptimizationPayload.NoSentinelAllServices | app/src/main/java/com/mapbox/Commons.kt:187-192 | When no label is a sentinel, every label becomes one service, in order. |
| OptimizationPayload.StartAndEndOnly | app/src/main/java/com/mapbox/Commons.kt:187 | A start and an end stop alone add no service. |
| OptimizationWorkflow.DecideSubmit | app/src/main/java/com/mapbox/Commons.kt:203-213 | Polling starts with the returned id iff the call succeeded and `status` is "ok"; an unsuccessful call is only logged; another status does nothing further. |
| OptimizationWorkflow.StepPoll | app/src/main/java/com/mapbox/Commons.kt:225-241 | A successful response with status "processing" re-polls; any other successful response with `routes[0].stops` (even without a status) finishes with exactly those stops; an unsuccessful call stops polling. |
| OptimizationWorkflow.PollOptimization | app/src/main/java/com/mapbox/Commons.kt:218-243 | Every poll uses the same job id; every poll before the last answered "processing"; the loop ends with the last response's step, or after `maxAttempts` polls that were all "processing". |
| OptimizationWorkflow.MakeOptimizationRequest | app/src/main/java/com/mapbox/Commons.kt:175-216 | A payload is sent iff every feature has a comment, with the payload's locations and services; polling happens only after an "ok" submission and then with its id; a route is requested iff the last poll finished with stops that all have a snapped coordinate, and the request's coordinates and names are those of the stops. |
| OptimizationWorkflow.ProcessingTwiceThenFinished | app/src/main/java/com/mapbox/Commons.kt:229-235 | A job that answers "processing" twice and then its stops is polled exactly three times, with the same id, and finishes with those stops. |
| OptimizationWorkflow.StartStopEndScenario | app/src/main/java/com/mapbox/Commons.kt:175-268 | Start, "A" and end give three locations and one service ("A"); a job that is finished at once is polled once; the route goes through the three snapped points in order, named "スタート;A;エンド". |
| DirectionsRequest.MakeDirectionsRequest | app/src/main/java/com/mapbox/Commons.kt:245-268 | A request is made iff every stop has a snapped coordinate; it has one coordinate per stop, in stop order, read as [lon, lat]; the waypoint targets equal the coordinates; steps and alternatives are set; the names are the ';'-join of the stop names once leading empty names are dropped, and split back into the stop names when the first is non-empty and none holds ';'. |
| DirectionsRequest.RequestRouteFromPoints | app/src/main/java/com/mapbox/Commons.kt:122-153 | A request is made iff every feature has a comment; one waypoint per feature in file order; targets equal coordinates; the names are the ';'-join of the comments with leading empty ones dropped. |
| WaypointNames.AccumulatedNamesIsJoin | app/src/main/java/com/mapbox/Commons.kt:137-140 | Accumulating with "add ';' only once non-empty" equals the plain ';'-join of the labels left after dropping the leading empty ones. |
| WaypointNames.DropLeadingEmptyIsSuffix | app/src/main/java/com/mapbox/Commons.kt:137-140 | Only leading empty labels are dropped before the join; the remaining labels are an unchanged suffix of the input. |
| WaypointNames.AccumulatedNamesWhenFirstNonEmpty | app/src/main/java/com/mapbox/Commons.kt:255-256 | When the first label is non-empty (in particular when all are), the accumulation is exactly the ';'-join. |
| WaypointNames.LeadingEmptyLabelWritesNoSeparator | app/src/main/java/com/mapbox/Commons.kt:137-140 | The quirk on a concrete input: labels "" and "a" give "a", not ";a". |
| WaypointNames.JoinSeparatorCount | app/src/main/java/com/mapbox/Commons.kt:255-256 | Joining n labels free of ';' writes exactly n - 1 separators. |
| WaypointNames.SplitJoin | app/src/main/java/com/mapbox/Commons.kt:255-256 | Splitting the join at ';' gives back the labels, when none holds ';'. |
| WaypointOrder.ReorderedWaypoints | app/src/main/java/com/mapbox/Commons.kt:304-341 | The reordering exists iff every feature has a comment and more than twelve features remain before the last is removed; entry i is the point of feature (i + 5) mod 12. |
| WaypointOrder.RotationIsUndone | app/src/main/java/com/mapbox/Commons.kt:329-341 | The reordering is a rotation of the first twelve points: rotating back by seven gives them in file order, and it is a permutation of them. |
| CommonsState.NextIndex | app/src/main/java/com/mapbox/Commons.kt:500 | The next profile index stays in 0..2 and is the old one plus 1 modulo 3. |
| CommonsState.ThreeChangesReturn | app/src/main/java/com/mapbox/Commons.kt:497-500 | Every change selects another profile, and three changes return to the original one. |
| CommonsState.MappingsDistinguishProfiles | app/src/main/java/com/mapbox/Commons.kt:509-527 | The icon and isochrone mappings are total and injective over the three profiles, and the icon reads back as its profile. |
| CommonsState.HistoryHoldsOnlyReadyDestinations | app/src/main/java/com/mapbox/Commons.kt:103-117 | Starting empty, the destination history only ever holds a destination whose route request came back ready. |
| CommonsState.CancelClearsHistory | app/src/main/java/com/mapbox/Commons.kt:155-157 | A cancelled route request of either kind empties the destination history. |
| CommonsState.Commons.constructor | app/src/main/java/com/mapbox/Commons.kt:497-498 | The profile index starts at 0 (driving), and the history is empty (`null`, as `lastDestination` is declared at Commons.kt:51). |
| CommonsState.Commons.SetDestinationHistory | app/src/main/java/com/mapbox/Commons.kt:53-55 | Sets the history cell and nothing else. |
| CommonsState.Commons.GetDestinationHistory | app/src/main/java/com/mapbox/Commons.kt:57-59 | Returns the history cell. |
| CommonsState.Commons.ChangeDirectionsCriteria | app/src/main/java/com/mapbox/Commons.kt:499-501 | The index advances by 1 modulo 3 and stays in 0..2; the history is unchanged. |
| CommonsState.Commons.DirectionsCriteriaIcon | app/src/main/java/com/mapbox/Commons.kt:509-517 | The icon shown is the one of the current profile. |
| CommonsState.Commons.CurrentIsochroneProfile | app/src/main/java/com/mapbox/Commons.kt:519-527 | The isochrone profile is driving, cycling or walking exactly when the current profile is. |
| CommonsState.Commons.OnRouterCallback | app/src/main/java/com/mapbox/Commons.kt:102-118 | A destination request sets the history on success and clears it on failure or cancel; a fixed-route request clears it only on cancel. |
| CommonsState.Commons.UpdateDirectionCriteria | app/src/main/java/com/mapbox/Commons.kt:81-89 | The profile moves to the next one and the remembered destination, if any, is routed again; the history itself is kept. |
| POISearcher.CoordinateFixer.constructor | app/src/main/java/com/mapbox/poi/POISearcher.kt:232-234 | A fresh fixer has an empty counter map. |
| POISearcher.CoordinateFixer.Fix | app/src/main/java/com/mapbox/poi/POISearcher.kt:236-246 | The counter of this point's key becomes the number of calls with that key and no other key changes; the point comes back moved by (number of earlier calls with the key) offsets on both axes. |
| POISearcher.FirstOccurrenceUnchanged | app/src/main/java/com/mapbox/poi/POISearcher.kt:238-245 | The first occurrence of a coordinate comes back unchanged. |
| POISearcher.DuplicatesSpreadApart | app/src/main/java/com/mapbox/poi/POISearcher.kt:238-245 | Two occurrences of one coordinate never come back at the same place. |
| POISearcher.DistinctPointsUnchanged | app/src/main/java/com/mapbox/poi/POISearcher.kt:236-246 | Points without duplicates all come back unchanged. |
| POISearcher.CategoryAsWritten | app/src/main/java/com/mapbox/poi/POISearcher.kt:182 | The category expression as written fails exactly for a present but empty category list. |
| POISearcher.EmptyCategoryListThrows | app/src/main/java/com/mapbox/poi/POISearcher.kt:182 | An empty category list makes the expression read index -1 and throw. |
| POISearcher.StoredCategoryAgreesWithSource | app/src/main/java/com/mapbox/poi/POISearcher.kt:182 | Wherever the source does not throw, it stores the same category. |
| POISearcher.ResultOptionsAt | app/src/main/java/com/mapbox/poi/POISearcher.kt:175-190 | Result i gets data index i, the blue marker, and its coordinate moved by the number of earlier results of the same batch at that coordinate. |
| POISearcher.FixResults | app/src/main/java/com/mapbox/poi/POISearcher.kt:169-191 | A fresh fixer per batch: the entries built are exactly `ResultOptions(results)`, one per result with the corrected category, and `pointList` is the results' unfixed coordinates. |
| POISearcher.OnResults | app/src/main/java/com/mapbox/poi/POISearcher.kt:167-193 | Without the marker bitmap nothing changes; otherwise one entry per result (with the corrected category) is appended after the earlier ones, and an annotation is created for every entry of the whole list, in order, leaving the focus as it was. |
| View.ViewHelper.constructor | app/src/main/java/com/mapbox/view/ViewHelper.kt:421-425 | Both lists start empty and nothing is focused. |
| View.ViewHelper.ItemCount | app/src/main/java/com/mapbox/view/ViewHelper.kt:497-499 | The card count is the number of entries, which is also the number of annotation slots. |
| View.ViewHelper.RemovePreviousSelectedLocation | app/src/main/java/com/mapbox/view/ViewHelper.kt:427-434 | The focused annotation is deleted, and a regular annotation is recreated from the options at the previous index and stored back in that slot; the options list is untouched. |
| View.ViewHelper.ReplaceRegularLocationWithFocusedLocation | app/src/main/java/com/mapbox/view/ViewHelper.kt:436-448 | The regular annotation at the position is deleted; a red one with the same geometry and data is created and becomes the focus at that position; the options list is untouched. |
| View.ViewHelper.OnScrolled | app/src/main/java/com/mapbox/view/ViewHelper.kt:409-418 | Scrolling to the focused position changes nothing; otherwise the focus moves to the new position, drawn red, the previous focus is restored as a regular marker, and the new position's regular marker is removed from the map. |
| View.ViewHelper.RemoveAllSearchedLocations | app/src/main/java/com/mapbox/view/ViewHelper.kt:386-395 | Both lists are emptied, the focus is reset, and no annotation is left on the map. |
| LocationCard.ShownRoundTrip | app/src/main/java/com/mapbox/view/ViewHelper.kt:493-494 | A field free of quotes and backslashes is shown exactly as stored; an absent one is shown as "null". |
| LocationCard.EmbeddedQuoteShowsBackslash | app/src/main/java/com/mapbox/view/ViewHelper.kt:484 | Stripping quotes from the JSON text of a value with a quote in it leaves the escaping backslash where the quote was. |
| LocationCard.LastIndexOf | app/src/main/java/com/mapbox/view/ViewHelper.kt:486 | The index is -1 exactly when the character is absent; otherwise it holds the character and none follows it. |
| LocationCard.CategoryLabelIsLeaf | app/src/main/java/com/mapbox/view/ViewHelper.kt:485-490 | A category `path>leaf` is labelled "(leaf)"; one without '>' gets no label. |
| LocationCard.CardOf | app/src/main/java/com/mapbox/view/ViewHelper.kt:484-494 | No text of the card holds a quote; the distance text ends in " m", and is "distance m" for a distance free of quotes and backslashes; a plain address is shown as stored, and an absent one as "null". |
| LocationCard.CardNameOfCategorisedResult | app/src/main/java/com/mapbox/view/ViewHelper.kt:484-492 | A result with category `path>leaf` is shown as "(leaf) name". |
| LocationCard.CardNameOfUncategorisedResult | app/src/main/java/com/mapbox/view/ViewHelper.kt:484-492 | A result without a category is shown as " name": no label, but the space stays. |
| LocationCard.BindViewHolder | app/src/main/java/com/mapbox/view/ViewHelper.kt:481-495 | The holder's index is the position; no text of the card holds a quote; for the entry at that position with a name free of quotes and backslashes, the name reads "(leaf) name" when its category is `path>leaf` and " name" when it has none; a plain distance reads "distance m" and a plain address is shown as stored. |
| LocationCard.CardName | app/src/main/java/com/mapbox/view/ViewHelper.kt:484-492 | For a result whose name is free of quotes and backslashes: " name" without a category, and "(leaf) name" for every split of its category as `path>leaf` with a plain leaf free of '>'. |
| LocationCard.ShownText | app/src/main/java/com/mapbox/view/ViewHelper.kt:484 | A field's shown text never holds a quote; a plain value is shown as stored, an absent one as "null". |
| RandomPoints.DecimalRoundTrip | app/src/main/java/com/mapbox/view/ViewHelper.kt:353 | The decimal text of an index reads back as that index. |
| RandomPoints.WaypointLabelsDistinct | app/src/main/java/com/mapbox/view/ViewHelper.kt:353 | "中継点i" labels differ for different indices and are never a start or end sentinel. |
| RandomPoints.AddRandomPoints | app/src/main/java/com/mapbox/view/ViewHelper.kt:348-365 | At most 402 random features are processed (all of them if there are fewer); each is tagged type "waypoint" and comment "中継点i" and appended after the base features, in order, and its point is drawn. |
| RandomPoints.RandomWaypointsAreServices | app/src/main/java/com/mapbox/view/ViewHelper.kt:351-354 | Every random waypoint becomes one service of the optimization request, in order. |
| RandomPoints.RandomTripIsCommented | app/src/main/java/com/mapbox/view/ViewHelper.kt:343-354 | With a fully labelled base trip, the trip handed to the optimization workflow is fully labelled, so building its payload does not throw. |

## Left out

- HTTP and JSON plumbing: OkHttp calls, `execute()`, response parsing and asset reads (`getJsonFromFile`, `get3DStyle`). Responses and features are records. A missing field is an `Err`/`None` outcome only where the model keeps the field optional: a feature's "comment", a stop's `snapped_coordinate` with fewer than two entries, the submission's `status` and `id`, a poll's `status`, `routes` and `stops`, and a search result's category list.
- JSON fields assumed present: a stop's `location` and `location_metadata` (Commons.kt:250 and 253), a feature's `geometry` (Commons.kt:130 and 185) and its `properties` object (Commons.kt:132), and a random feature's `properties` and `geometry` (ViewHelper.kt:351 and 356-357). The source throws when one of them is missing; the model has no value for that case.
- OptimizationWorkflow.PollOptimization: the source re-polls without limit, after `delay(100)` in a new coroutine; the model polls at most `maxAttempts` times and has no timing or concurrency.
- Vendor SDK calls: `requestRoutes`, the `RouteOptions` builder beyond the fields kept in `RouteRequest`, the route-options interceptor set by `changeDirectionsCriteria`, the style reload in `updateDirectionCriteria`, route previews, and the last-known-location origin.
- Router callbacks are modelled only by their effect on the destination history; their logging is left out.
- Camera moves, Toasts, search engines, isochrone requests, the click listener added by `onResults`, the circle annotations drawn by `addRandomPoints`, and launching `makeOptimizationRequest` from it.
- Floating point: coordinates are integers in 1e-5 degree, so the offset addition is exact; the distance is kept as its formatted text (`%.2f` is not modelled).
- POISearcher.CoordinateFixer.Fix: the source keys its counter by the text `"<lon>_<lat>"`; the model keys by the point itself, which differs only where two equal doubles print differently (0.0 and -0.0).
- LocationCard.Escaped: only quotes and backslashes are escaped; the JSON escapes of control characters and U+2028/U+2029 are left out.
- View.ViewHelper.OnScrolled: requires a position inside the list; RecyclerView's NO_POSITION (-1), reported when no card is visible, is not modelled.
- The red and blue marker bitmaps are assumed loaded in the focus bookkeeping; only `onResults` models a missing bitmap.
- `requestRouteByOptimization` is modelled only up to the reorder: the names and coordinate pairs it builds are unused, and the code after its early `return` never runs.
- `requestRouteFromLine`, `clearHistory`, the isochrone and maneuver-view helpers, and `MainActivity.kt` are lifecycle, permission and UI wiring, outside this model.
- POISearcher.FixResults: stores the corrected category of every result (see "## Findings"); where POISearcher.kt:182 throws on a present but empty category list, the source's loop stops at that result, and this is not modelled.
- POISearcher.OnResults: appends an entry for every result; the source, on a result with an empty category list, throws mid-loop after appending the earlier results' entries (POISearcher.kt:190) and never recreates the annotations (line 193).
- The `profile` parameter of `MakeDirectionsRequest`, `RequestRouteFromPoints` and `MakeOptimizationRequest` stands for `dcList[dcIndex]`, which the source reads at Commons.kt:146 and 262; `CommonsState.Commons.CurrentProfile` is that value.
- Stop labels: the sentinels are "スタート" and "エンド", as the code compares them, rather than a separate start/end role.

## Findings

| source | as written | input that shows it | evidently intended | confidence | as-written member | corrected member |
|---|---|---|---|---|---|---|
| app/src/main/java/com/mapbox/poi/POISearcher.kt:182 | `r.categories?.get(r.categories?.size?.minus(1) ?: 0)`: the fallback 0 applies only to an absent list | a search result whose category list is present but empty: index -1 is read and `onResults` throws | the last category when there is one, and no category otherwise | medium, not executed | POISearcher.EmptyCategoryListThrows | POISearcher.StoredCategory |
