/**
 * The point annotations of the search results, and the map SDK's point
 * annotation manager seen only as the set of live annotations it draws.
 */
module Annotations {

  import opened Basics
  import opened GeoJson

  /** The blue marker of a search result and the red marker of the focused one. */
  datatype MarkerIcon = BluePlace | RedPlace

  /** The JSON data attached to a search-result annotation. */
  datatype PlaceData = PlaceData(
    name: string,
    address: Option<string>,
    category: Option<string>,
    distance: string,
    index: int)

  datatype PointAnnotationOptions = PointAnnotationOptions(geometry: Point, icon: MarkerIcon, data: PlaceData)

  /** An annotation the manager created: its identity and the options it was created from. */
  datatype PointAnnotation = PointAnnotation(id: nat, options: PointAnnotationOptions)

  /** The red variant of an annotation: same geometry and data (`replaceRegularLocationWithFocusedLocation`). */
  function Focused(o: PointAnnotationOptions): PointAnnotationOptions {
    PointAnnotationOptions(o.geometry, RedPlace, o.data)
  }

  /** The id-to-options map of a list of annotations (later entries win). */
  function LiveOf(annotations: seq<PointAnnotation>): map<nat, PointAnnotationOptions> {
    if annotations == [] then map[]
    else
      var last := annotations[|annotations| - 1];
      LiveOf(annotations[..|annotations| - 1])[last.id := last.options]
  }

  class PointAnnotationManager {
    /** The annotations on the map, by id. */
    var live: map<nat, PointAnnotationOptions>
    var nextId: nat

    ghost predicate Valid()
      reads this
    {
      forall id :: id in live ==> id < nextId
    }

    constructor ()
      ensures Valid() && live == map[] && nextId == 0
    {
      live := map[];
      nextId := 0;
    }

    method Create(options: PointAnnotationOptions) returns (a: PointAnnotation)
      requires Valid()
      modifies this
      ensures Valid()
      ensures a == PointAnnotation(old(nextId), options) && a.id !in old(live)
      ensures live == old(live)[a.id := options] && nextId == old(nextId) + 1
    {
      a := PointAnnotation(nextId, options);
      live := live[nextId := options];
      nextId := nextId + 1;
    }

    /** Creates one annotation per options entry, in order. */
    method CreateAll(all: seq<PointAnnotationOptions>) returns (created: seq<PointAnnotation>)
      requires Valid()
      modifies this
      ensures Valid()
      ensures |created| == |all|
      ensures forall i :: 0 <= i < |all| ==> created[i] == PointAnnotation(old(nextId) + i, all[i])
      ensures nextId == old(nextId) + |all|
      ensures live == old(live) + LiveOf(created)
    {
      created := [];
      ghost var first := nextId;
      var i := 0;
      while i < |all|
        invariant 0 <= i <= |all| && |created| == i && nextId == first + i
        invariant forall k :: 0 <= k < i ==> created[k] == PointAnnotation(first + k, all[k])
        invariant live == old(live) + LiveOf(created)
        invariant Valid()
      {
        var a := Create(all[i]);
        assert (created + [a])[..|created|] == created;
        created := created + [a];
        i := i + 1;
      }
    }

    method Delete(a: PointAnnotation)
      modifies this
      ensures live == old(live) - {a.id} && nextId == old(nextId)
    {
      live := live - {a.id};
    }

    method DeleteAll()
      modifies this
      ensures live == map[] && nextId == old(nextId)
    {
      live := map[];
    }
  }
}
