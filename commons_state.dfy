/**
 * The mutable state of the `Commons` singleton: the travel-profile index that
 * the criteria button cycles, and the destination history that router
 * callbacks set or clear.
 */
module CommonsState {

  import opened Basics
  import opened GeoJson

  /** The directions profiles of `dcList`, in list order. */
  datatype Profile = Driving | Cycling | Walking

  /** The drawable shown for each profile. */
  datatype CriteriaIcon = CarIcon | BikeIcon | WalkIcon

  /** The isochrone API profile matching each directions profile. */
  datatype IsochroneProfile = IsochroneDriving | IsochroneCycling | IsochroneWalking

  const DcList: seq<Profile> := [Driving, Cycling, Walking]

  /** The index after a criteria change: back to 0 from the last entry, otherwise one up. */
  function NextIndex(i: int): (j: int)
    requires 0 <= i < |DcList|
    ensures 0 <= j < |DcList|
    ensures j == (i + 1) % |DcList|
  {
    if i >= |DcList| - 1 then 0 else i + 1
  }

  function IconOf(p: Profile): CriteriaIcon {
    if p == Driving then CarIcon
    else if p == Cycling then BikeIcon
    else WalkIcon
  }

  function IsochroneProfileOf(p: Profile): IsochroneProfile {
    if p == Driving then IsochroneDriving
    else if p == Cycling then IsochroneCycling
    else IsochroneWalking
  }

  /** Reads back the profile an icon stands for. */
  function ProfileOfIcon(icon: CriteriaIcon): Profile {
    match icon
    case CarIcon => Driving
    case BikeIcon => Cycling
    case WalkIcon => Walking
  }

  /** Every change moves to another profile, and three changes come back to the start. */
  lemma ThreeChangesReturn(i: int)
    requires 0 <= i < |DcList|
    ensures DcList[NextIndex(i)] != DcList[i]
    ensures NextIndex(NextIndex(NextIndex(i))) == i
  {
  }

  /** Both mappings are total and tell the three profiles apart. */
  lemma MappingsDistinguishProfiles(p: Profile, q: Profile)
    ensures ProfileOfIcon(IconOf(p)) == p
    ensures IconOf(p) == IconOf(q) <==> p == q
    ensures IsochroneProfileOf(p) == IsochroneProfileOf(q) <==> p == q
  {
  }

  /** Which route request a router callback belongs to. */
  datatype RouteCall =
    | DestinationRoute(destination: Point)  // requestRoutes(destination)
    | FixedRoute                            // requestRouteFromPoints, makeDirectionsRequest

  datatype RouterOutcome = RoutesReady | RouterFailure | RouterCanceled

  datatype RouterEvent = RouterEvent(call: RouteCall, outcome: RouterOutcome)

  /** The destination history after one router callback. */
  function HistoryAfter(history: Option<Point>, e: RouterEvent): Option<Point> {
    match e.call
    case DestinationRoute(d) =>
      if e.outcome == RoutesReady then Some(d) else None
    case FixedRoute =>
      if e.outcome == RouterCanceled then None else history
  }

  /** The destination history after a sequence of router callbacks. */
  function HistoryAfterAll(history: Option<Point>, events: seq<RouterEvent>): Option<Point> {
    if events == [] then history
    else HistoryAfter(HistoryAfterAll(history, events[..|events| - 1]), events[|events| - 1])
  }

  /**
   * Starting from an empty history, the history only ever holds a destination
   * whose route request came back ready.
   */
  lemma {:induction false} HistoryHoldsOnlyReadyDestinations(events: seq<RouterEvent>)
    ensures HistoryAfterAll(None, events).Some? ==>
      RouterEvent(DestinationRoute(HistoryAfterAll(None, events).value), RoutesReady) in events
    decreases |events|
  {
    if events != [] {
      var prefix := events[..|events| - 1];
      HistoryHoldsOnlyReadyDestinations(prefix);
      assert events == prefix + [events[|events| - 1]];
    }
  }

  /** A cancelled request of either kind always leaves the history empty. */
  lemma CancelClearsHistory(history: Option<Point>, call: RouteCall)
    ensures HistoryAfter(history, RouterEvent(call, RouterCanceled)) == None
  {
  }

  class Commons {
    var dcIndex: int
    var lastDestination: Option<Point>

    ghost predicate Valid()
      reads this
    {
      0 <= dcIndex < |DcList|
    }

    constructor ()
      ensures Valid()
      ensures dcIndex == 0 && lastDestination == None
    {
      dcIndex := 0;
      lastDestination := None;
    }

    /** `dcList[dcIndex]`. */
    function CurrentProfile(): Profile
      reads this
      requires Valid()
    {
      DcList[dcIndex]
    }

    method SetDestinationHistory(destination: Option<Point>)
      modifies this
      ensures lastDestination == destination && dcIndex == old(dcIndex)
    {
      lastDestination := destination;
    }

    method GetDestinationHistory() returns (destination: Option<Point>)
      ensures destination == lastDestination
    {
      destination := lastDestination;
    }

    method ChangeDirectionsCriteria()
      requires Valid()
      modifies this
      ensures Valid()
      ensures dcIndex == (old(dcIndex) + 1) % |DcList|
      ensures lastDestination == old(lastDestination)
    {
      if dcIndex >= |DcList| - 1 {
        dcIndex := 0;
      } else {
        dcIndex := dcIndex + 1;
      }
    }

    /** `getDirectionsCriteriaIcon` */
    function DirectionsCriteriaIcon(): (icon: CriteriaIcon)
      reads this
      requires Valid()
      ensures ProfileOfIcon(icon) == CurrentProfile()
    {
      IconOf(DcList[dcIndex])
    }

    /** `getIsochroneProfile` */
    function CurrentIsochroneProfile(): (p: IsochroneProfile)
      reads this
      requires Valid()
      ensures p == IsochroneDriving <==> CurrentProfile() == Driving
      ensures p == IsochroneCycling <==> CurrentProfile() == Cycling
      ensures p == IsochroneWalking <==> CurrentProfile() == Walking
    {
      IsochroneProfileOf(DcList[dcIndex])
    }

    /** A router callback's effect on the destination history. */
    method OnRouterCallback(e: RouterEvent)
      modifies this
      ensures lastDestination == HistoryAfter(old(lastDestination), e)
      ensures dcIndex == old(dcIndex)
    {
      match e.call
      case DestinationRoute(d) =>
        if e.outcome == RoutesReady {
          SetDestinationHistory(Some(d));
        } else {
          SetDestinationHistory(None);
        }
      case FixedRoute =>
        if e.outcome == RouterCanceled {
          SetDestinationHistory(None);
        }
    }

    /**
     * `updateDirectionCriteria`: move to the next profile, then re-request the
     * route to the remembered destination, if there is one.
     */
    method UpdateDirectionCriteria() returns (reroute: Option<Point>)
      requires Valid()
      modifies this
      ensures Valid()
      ensures dcIndex == NextIndex(old(dcIndex))
      ensures reroute == lastDestination == old(lastDestination)
    {
      ChangeDirectionsCriteria();
      reroute := GetDestinationHistory();
    }
  }
}
