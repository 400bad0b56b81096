/**
 * The route requests Commons.kt hands to the navigation SDK once an ordered
 * list of stops is known: `makeDirectionsRequest` (the optimized stops) and
 * `requestRouteFromPoints` (the fixed route file).
 */
module DirectionsRequest {

  import opened Basics
  import opened GeoJson
  import opened WaypointNames
  import opened CommonsState

  /** The route options the requests set. */
  datatype RouteRequest = RouteRequest(
    profile: Profile,
    coordinates: seq<Point>,
    waypointTargets: seq<Point>,
    waypointNames: string,
    steps: bool,
    alternatives: bool)

  /** One entry of `routes[0].stops`: its location name and `location_metadata.snapped_coordinate`. */
  datatype Stop = Stop(location: string, snappedCoordinate: seq<int>)

  predicate Snapped(s: Stop) {
    |s.snappedCoordinate| >= 2
  }

  predicate AllSnapped(stops: seq<Stop>) {
    forall i :: 0 <= i < |stops| ==> Snapped(stops[i])
  }

  function StopNames(stops: seq<Stop>): (names: seq<string>)
    ensures |names| == |stops|
    ensures forall i :: 0 <= i < |stops| ==> names[i] == stops[i].location
  {
    seq(|stops|, i requires 0 <= i < |stops| => stops[i].location)
  }

  lemma AccumulatedNamesSnoc(names: seq<string>, x: string)
    ensures AccumulatedNames(names + [x]) == AppendName(AccumulatedNames(names), x)
  {
    assert (names + [x])[..|names|] == names;
  }

  /** What the accumulated names are, and when they split back into the labels. */
  lemma NamesRoundTrip(names: seq<string>)
    ensures AccumulatedNames(names) == Join(DropLeadingEmpty(names))
    ensures |names| > 0 && names[0] != "" && NoSeparator(names) ==> Split(AccumulatedNames(names)) == names
  {
    AccumulatedNamesIsJoin(names);
    if |names| > 0 && names[0] != "" && NoSeparator(names) {
      SplitJoin(names);
    }
  }

  /**
   * `makeDirectionsRequest`: one coordinate per stop, in stop order, read as
   * [lon, lat] from the snapped coordinate; a snapped coordinate with fewer
   * than two entries makes `getDouble` throw and no request is made.
   */
  method MakeDirectionsRequest(stops: seq<Stop>, profile: Profile) returns (r: Result<RouteRequest, string>)
    ensures r.Ok? <==> AllSnapped(stops)
    ensures r.Ok? ==>
      && |r.value.coordinates| == |stops|
      && (forall i :: 0 <= i < |stops| ==>
            r.value.coordinates[i] == Point(stops[i].snappedCoordinate[0], stops[i].snappedCoordinate[1]))
      && r.value.waypointTargets == r.value.coordinates
      && r.value.steps && r.value.alternatives && r.value.profile == profile
      && r.value.waypointNames == Join(DropLeadingEmpty(StopNames(stops)))
    ensures r.Ok? && |stops| > 0 && stops[0].location != "" && NoSeparator(StopNames(stops)) ==>
      Split(r.value.waypointNames) == StopNames(stops)
  {
    var coordinatesList: seq<Point> := [];
    var wayNames := "";
    ghost var names := StopNames(stops);
    var i := 0;
    while i < |stops|
      invariant 0 <= i <= |stops|
      invariant forall k :: 0 <= k < i ==> Snapped(stops[k])
      invariant |coordinatesList| == i
      invariant forall k :: 0 <= k < i ==>
        coordinatesList[k] == Point(stops[k].snappedCoordinate[0], stops[k].snappedCoordinate[1])
      invariant wayNames == AccumulatedNames(names[..i])
    {
      var snapped := stops[i].snappedCoordinate;
      if |snapped| < 2 {
        assert !Snapped(stops[i]);
        return Err("JSONException: snapped_coordinate has no index 1");
      }
      var point := Point(snapped[0], snapped[1]);
      coordinatesList := coordinatesList + [point];
      TakeOneMore(names, i);
      AccumulatedNamesSnoc(names[..i], names[i]);
      if wayNames != "" {
        wayNames := wayNames + ";";
      }
      wayNames := wayNames + stops[i].location;
      i := i + 1;
    }
    assert names[..i] == names;
    NamesRoundTrip(names);
    r := Ok(RouteRequest(profile, coordinatesList, coordinatesList, wayNames, true, true));
  }

  /**
   * `requestRouteFromPoints`: every feature of the fixed route file becomes a
   * waypoint, in file order, named by its "comment" property.
   */
  method RequestRouteFromPoints(features: seq<Feature>, profile: Profile) returns (r: Result<RouteRequest, string>)
    ensures r.Ok? <==> AllCommented(features)
    ensures r.Ok? ==>
      && |r.value.coordinates| == |features|
      && (forall i :: 0 <= i < |features| ==> r.value.coordinates[i] == features[i].coordinates)
      && r.value.waypointTargets == r.value.coordinates
      && r.value.steps && r.value.alternatives && r.value.profile == profile
      && r.value.waypointNames == Join(DropLeadingEmpty(CommentsOf(features)))
    ensures r.Ok? && |features| > 0 && CommentOf(features[0]) != "" && NoSeparator(CommentsOf(features)) ==>
      Split(r.value.waypointNames) == CommentsOf(features)
  {
    var waylist: seq<Point> := [];
    var wayNames := "";
    ghost var names: seq<string> := [];
    var i := 0;
    while i < |features|
      invariant 0 <= i <= |features|
      invariant |waylist| == i && |names| == i
      invariant forall k :: 0 <= k < i ==> HasComment(features[k]) && names[k] == CommentOf(features[k])
      invariant forall k :: 0 <= k < i ==> waylist[k] == features[k].coordinates
      invariant wayNames == AccumulatedNames(names)
    {
      var element := features[i];
      if CommentKey !in element.properties {
        assert !HasComment(features[i]);
        return Err("JSONException: no value for comment");
      }
      var comment := element.properties[CommentKey];
      waylist := waylist + [element.coordinates];
      AccumulatedNamesSnoc(names, comment);
      if wayNames != "" {
        wayNames := wayNames + ";";
      }
      wayNames := wayNames + comment;
      names := names + [comment];
      i := i + 1;
    }
    assert names == CommentsOf(features);
    NamesRoundTrip(names);
    r := Ok(RouteRequest(profile, waylist, waylist, wayNames, true, true));
  }
}
