/**
 * POISearcher: the duplicate-coordinate spreader (`CoordinateFixer`) and the
 * `onResults` loop that turns category-search results into annotation options.
 */
module POISearcher {

  import opened Basics
  import opened GeoJson
  import opened Annotations
  import opened View

  /** OFFSET (1e-5 degree) in the fixed-point coordinate unit. */
  const OffsetUnits: int := 1

  /** A point moved by `multiplier` offsets, equally in longitude and latitude. */
  function Shifted(p: Point, multiplier: nat): Point {
    Point(p.lon + multiplier * OffsetUnits, p.lat + multiplier * OffsetUnits)
  }

  /**
   * What one fresh fixer returns for each point of `points`, in order: the
   * k-th occurrence of a coordinate is moved by k - 1 offsets.
   */
  function FixedPoints(points: seq<Point>): (fixed: seq<Point>)
    ensures |fixed| == |points|
  {
    seq(|points|, i requires 0 <= i < |points| => Shifted(points[i], Count(points[..i], points[i])))
  }

  class CoordinateFixer {
    /** Occurrence count per coordinate key. */
    var fixerMap: map<Point, int>
    /** The points given to `Fix` so far, in call order. */
    ghost var calls: seq<Point>

    ghost predicate Valid()
      reads this
    {
      && (forall key :: key in fixerMap <==> key in calls)
      && (forall key :: key in fixerMap ==> fixerMap[key] == Count(calls, key))
    }

    constructor ()
      ensures Valid() && calls == [] && fixerMap == map[]
    {
      fixerMap := map[];
      calls := [];
    }

    method Fix(point: Point) returns (fixed: Point)
      requires Valid()
      modifies this
      ensures Valid()
      ensures calls == old(calls) + [point]
      ensures fixerMap == old(fixerMap)[point := Count(old(calls), point) + 1]
      ensures fixed == Shifted(point, Count(old(calls), point))
    {
      var count := 0;
      if point in fixerMap {
        count := fixerMap[point];
      }
      count := count + 1;
      fixerMap := fixerMap[point := count];
      forall key | key in fixerMap
        ensures fixerMap[key] == Count(calls + [point], key)
      {
        CountAppend(calls, [point], key);
        assert [point][..0] == [];
      }
      calls := calls + [point];
      fixed := Shifted(point, count - 1);
    }
  }

  /** The first occurrence of a coordinate comes back unchanged. */
  lemma FirstOccurrenceUnchanged(points: seq<Point>, i: nat)
    requires i < |points| && points[i] !in points[..i]
    ensures FixedPoints(points)[i] == points[i]
  {
  }

  /** Two occurrences of one coordinate never come back at the same place. */
  lemma DuplicatesSpreadApart(points: seq<Point>, i: nat, j: nat)
    requires i < j < |points| && points[i] == points[j]
    ensures FixedPoints(points)[i] != FixedPoints(points)[j]
  {
    var x := points[i];
    assert points[..j] == points[..i] + points[i..j];
    CountAppend(points[..i], points[i..j], x);
    assert points[i..j][0] == x;
  }

  /** Points without duplicates are all returned unchanged. */
  lemma DistinctPointsUnchanged(points: seq<Point>)
    requires forall i, j :: 0 <= i < j < |points| ==> points[i] != points[j]
    ensures FixedPoints(points) == points
  {
    forall i | 0 <= i < |points|
      ensures FixedPoints(points)[i] == points[i]
    {
      FirstOccurrenceUnchanged(points, i);
    }
  }

  /** A search result, as far as `onResults` reads it. */
  datatype SearchResult = SearchResult(
    name: string,
    fullAddress: Option<string>,
    categories: Option<seq<string>>,
    distanceText: string,   // `String.format("%.2f", distanceMeters)`
    coordinate: Point)

  /**
   * `r.categories?.get(r.categories?.size?.minus(1) ?: 0)` as written: the
   * fallback 0 applies only to an absent list, so an empty list reads index -1.
   */
  function CategoryAsWritten(categories: Option<seq<string>>): (r: Result<Option<string>, string>)
    ensures r.Err? <==> categories == Some([])
  {
    match categories
    case None => Ok(None)
    case Some(cs) =>
      var index := |cs| - 1;
      if 0 <= index < |cs| then Ok(Some(cs[index])) else Err("IndexOutOfBoundsException")
  }

  /** A result with an empty category list makes `onResults` throw. */
  lemma EmptyCategoryListThrows()
    ensures CategoryAsWritten(Some([])) == Err("IndexOutOfBoundsException")
  {
  }

  /** The category stored with a result: the last one listed, or none. */
  function StoredCategory(categories: Option<seq<string>>): (c: Option<string>)
    ensures c.Some? <==> categories.Some? && |categories.value| > 0
    ensures c.Some? ==> c.value == categories.value[|categories.value| - 1]
  {
    if categories.Some? && |categories.value| > 0 then Some(categories.value[|categories.value| - 1])
    else None
  }

  /** Wherever the source does not throw, it stores the same category. */
  lemma StoredCategoryAgreesWithSource(categories: Option<seq<string>>)
    ensures CategoryAsWritten(categories).Ok? ==> CategoryAsWritten(categories).value == StoredCategory(categories)
  {
  }

  function CoordinatesOf(results: seq<SearchResult>): (points: seq<Point>)
    ensures |points| == |results|
    ensures forall i :: 0 <= i < |results| ==> points[i] == results[i].coordinate
  {
    seq(|results|, i requires 0 <= i < |results| => results[i].coordinate)
  }

  /** The data attached to the result at `index`. */
  function PlaceDataOf(r: SearchResult, index: int): PlaceData {
    PlaceData(r.name, r.fullAddress, StoredCategory(r.categories), r.distanceText, index)
  }

  /** The annotation options one `onResults` call appends, one per result. */
  function ResultOptions(results: seq<SearchResult>): (options: seq<PointAnnotationOptions>)
    ensures |options| == |results|
  {
    var fixed := FixedPoints(CoordinatesOf(results));
    seq(|results|, i requires 0 <= i < |results| =>
      PointAnnotationOptions(fixed[i], BluePlace, PlaceDataOf(results[i], i)))
  }

  /**
   * Each result's options carry its index in the batch and its coordinate,
   * spread from earlier duplicates of the same batch only.
   */
  lemma ResultOptionsAt(results: seq<SearchResult>, i: nat)
    requires i < |results|
    ensures ResultOptions(results)[i].data.index == i
    ensures ResultOptions(results)[i].icon == BluePlace
    ensures ResultOptions(results)[i].geometry ==
      Shifted(results[i].coordinate, Count(CoordinatesOf(results)[..i], results[i].coordinate))
  {
  }

  /**
   * The loop of `onResults`: each result in order gets its coordinate spread
   * by one fresh fixer, and its options entry with its index in the batch.
   */
  method FixResults(results: seq<SearchResult>) returns (options: seq<PointAnnotationOptions>, pointList: seq<Point>)
    ensures options == ResultOptions(results)
    ensures pointList == CoordinatesOf(results)
  {
    var fixer := new CoordinateFixer();
    ghost var coords := CoordinatesOf(results);
    ghost var expected := ResultOptions(results);
    options, pointList := [], [];
    var index := 0;
    while index < |results|
      invariant 0 <= index <= |results|
      invariant fixer.Valid() && fixer.calls == coords[..index]
      invariant pointList == coords[..index]
      invariant options == expected[..index]
    {
      var r := results[index];
      pointList := pointList + [r.coordinate];
      var fixedCoordinates := fixer.Fix(r.coordinate);
      var data := PlaceData(r.name, r.fullAddress, StoredCategory(r.categories), r.distanceText, index);
      options := options + [PointAnnotationOptions(fixedCoordinates, BluePlace, data)];
      TakeOneMore(coords, index);
      TakeOneMore(expected, index);
      index := index + 1;
    }
    assert coords[..index] == coords && expected[..index] == expected;
  }

  /**
   * `onResults`. With the marker bitmap available, every result appends one
   * options entry (earlier entries kept), a fresh fixer spreads this batch's
   * duplicates, and the annotation list is recreated for the whole options
   * list. `pointList` gets the results' unfixed coordinates.
   */
  method OnResults(vh: ViewHelper, results: seq<SearchResult>, markerLoaded: bool) returns (pointList: seq<Point>)
    requires vh.Valid()
    modifies vh, vh.manager
    ensures vh.Valid()
    ensures !markerLoaded ==> pointList == [] && unchanged(vh, vh.manager)
    ensures markerLoaded ==>
      && pointList == CoordinatesOf(results)
      && vh.locationOptionsList == old(vh.locationOptionsList) + ResultOptions(results)
      && (forall k :: 0 <= k < |vh.locationOptionsList| ==>
            vh.locationAnnotationList[k] == PointAnnotation(old(vh.manager.nextId) + k, vh.locationOptionsList[k]))
      && vh.manager.live == old(vh.manager.live) + LiveOf(vh.locationAnnotationList)
      && vh.previousLocationIndex == old(vh.previousLocationIndex)
      && vh.previousFocusedAnnotation == old(vh.previousFocusedAnnotation)
  {
    pointList := [];
    if !markerLoaded {
      return;
    }
    var options;
    options, pointList := FixResults(results);
    vh.locationOptionsList := vh.locationOptionsList + options;
    vh.locationAnnotationList := vh.manager.CreateAll(vh.locationOptionsList);
  }
}
