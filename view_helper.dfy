/**
 * The search-result bookkeeping of ViewHelper: the options and annotations of
 * every result, and which one the horizontal card list has focused (drawn with
 * the red marker in place of its regular annotation).
 */
module View {

  import opened Basics
  import opened Annotations

  class ViewHelper {
    const manager: PointAnnotationManager
    var locationOptionsList: seq<PointAnnotationOptions>
    var locationAnnotationList: seq<PointAnnotation>
    var previousLocationIndex: Option<int>
    var previousFocusedAnnotation: Option<PointAnnotation>

    ghost predicate Valid()
      reads this, manager
    {
      && manager.Valid()
      && |locationAnnotationList| == |locationOptionsList|
      && (previousLocationIndex.Some? <==> previousFocusedAnnotation.Some?)
      && (previousLocationIndex.Some? ==> 0 <= previousLocationIndex.value < |locationOptionsList|)
      // every annotation held here was issued by the manager
      && (forall k :: 0 <= k < |locationAnnotationList| ==> locationAnnotationList[k].id < manager.nextId)
      && (previousFocusedAnnotation.Some? ==> previousFocusedAnnotation.value.id < manager.nextId)
    }

    constructor ()
      ensures Valid() && fresh(manager)
      ensures locationOptionsList == [] && locationAnnotationList == []
      ensures previousLocationIndex == None && previousFocusedAnnotation == None
      ensures manager.live == map[]
    {
      manager := new PointAnnotationManager();
      locationOptionsList := [];
      locationAnnotationList := [];
      previousLocationIndex := None;
      previousFocusedAnnotation := None;
    }

    /** `getItemCount` of the card adapter: one card per annotation slot. */
    function ItemCount(): (n: nat)
      reads this, manager
      requires Valid()
      ensures n == |locationAnnotationList|
    {
      |locationOptionsList|
    }

    /**
     * Deletes the focused annotation and recreates a regular one at the
     * previous index, from that index's options.
     */
    method RemovePreviousSelectedLocation()
      requires Valid()
      modifies this, manager
      ensures Valid()
      ensures locationOptionsList == old(locationOptionsList)
      ensures previousLocationIndex == old(previousLocationIndex)
      ensures previousFocusedAnnotation == old(previousFocusedAnnotation)
      ensures old(previousLocationIndex).None? ==>
        && locationAnnotationList == old(locationAnnotationList)
        && manager.live == old(manager.live) && manager.nextId == old(manager.nextId)
      ensures old(previousLocationIndex).Some? ==>
        var i := old(previousLocationIndex).value;
        var regular := PointAnnotation(old(manager.nextId), locationOptionsList[i]);
        && locationAnnotationList == old(locationAnnotationList)[i := regular]
        && manager.live == (old(manager.live) - {old(previousFocusedAnnotation).value.id})[regular.id := regular.options]
        && manager.nextId == old(manager.nextId) + 1
    {
      if previousFocusedAnnotation.Some? {
        manager.Delete(previousFocusedAnnotation.value);
      }
      if previousLocationIndex.Some? {
        var i := previousLocationIndex.value;
        var regular := manager.Create(locationOptionsList[i]);
        locationAnnotationList := locationAnnotationList[i := regular];
      }
    }

    /**
     * Deletes the regular annotation at `position` and creates the red one with
     * the same geometry and data; remembers both as the focus.
     */
    method ReplaceRegularLocationWithFocusedLocation(position: int)
      requires Valid() && 0 <= position < |locationOptionsList|
      modifies this, manager
      ensures Valid()
      ensures locationOptionsList == old(locationOptionsList)
      ensures locationAnnotationList == old(locationAnnotationList)
      ensures previousLocationIndex == Some(position)
      ensures previousFocusedAnnotation == Some(PointAnnotation(old(manager.nextId), Focused(locationOptionsList[position])))
      ensures manager.live ==
        (old(manager.live) - {locationAnnotationList[position].id})[old(manager.nextId) := Focused(locationOptionsList[position])]
      ensures manager.nextId == old(manager.nextId) + 1
    {
      manager.Delete(locationAnnotationList[position]);
      var annotationOption := locationOptionsList[position];
      var option := PointAnnotationOptions(annotationOption.geometry, RedPlace, annotationOption.data);
      var focused := manager.Create(option);
      previousFocusedAnnotation := Some(focused);
      previousLocationIndex := Some(position);
    }

    /**
     * `RecyclerViewScrollListener.onScrolled` with the first visible card at
     * `position`: nothing happens when it is already focused; otherwise the
     * focus moves there. The camera move is not modelled.
     */
    method OnScrolled(position: int)
      requires Valid() && 0 <= position < |locationOptionsList|
      modifies this, manager
      ensures Valid()
      ensures old(previousLocationIndex) == Some(position) ==> unchanged(this, manager)
      ensures old(previousLocationIndex) != Some(position) ==>
        && locationOptionsList == old(locationOptionsList)
        && previousLocationIndex == Some(position)
        && previousFocusedAnnotation.Some?
        && previousFocusedAnnotation.value.options == Focused(locationOptionsList[position])
        && previousFocusedAnnotation.value.id !in old(manager.live)
        && previousFocusedAnnotation.value.id in manager.live
        && locationAnnotationList[position].id !in manager.live
      ensures old(previousLocationIndex).None? && previousLocationIndex == Some(position) ==>
        && locationAnnotationList == old(locationAnnotationList)
        && manager.live ==
             (old(manager.live) - {old(locationAnnotationList)[position].id})[old(manager.nextId) := Focused(locationOptionsList[position])]
      ensures old(previousLocationIndex).Some? && old(previousLocationIndex) != Some(position) ==>
        var i := old(previousLocationIndex).value;
        var regular := PointAnnotation(old(manager.nextId), locationOptionsList[i]);
        && locationAnnotationList == old(locationAnnotationList)[i := regular]
        && manager.live ==
             ((old(manager.live) - {old(previousFocusedAnnotation).value.id})[regular.id := regular.options]
               - {old(locationAnnotationList)[position].id})[old(manager.nextId) + 1 := Focused(locationOptionsList[position])]
    {
      if previousLocationIndex == Some(position) {
        return;
      }
      RemovePreviousSelectedLocation();
      ReplaceRegularLocationWithFocusedLocation(position);
    }

    /** Clears the results and the focus, and removes every point annotation from the map. */
    method RemoveAllSearchedLocations()
      requires Valid()
      modifies this, manager
      ensures Valid()
      ensures locationOptionsList == [] && locationAnnotationList == []
      ensures previousLocationIndex == None && previousFocusedAnnotation == None
      ensures manager.live == map[] && manager.nextId == old(manager.nextId)
    {
      manager.DeleteAll();
      previousLocationIndex := None;
      previousFocusedAnnotation := None;
      manager.DeleteAll();
      locationOptionsList := [];
      locationAnnotationList := [];
    }
  }
}
