/**
 * The hard-coded reordering in `requestRouteByOptimization`: the fixed route's
 * points minus the last one, with entries 5..11 moved in front of entries 0..4.
 * The reordered list feeds only code after the method's early `return`.
 */
module WaypointOrder {

  import opened Basics
  import opened GeoJson

  const RotationSize: nat := 12
  const RotationStart: nat := 5

  /**
   * `None` where the source throws: a feature without a "comment" (`getString`),
   * an empty list (`removeLast`), or fewer than twelve remaining points (`get`).
   */
  function ReorderedWaypoints(features: seq<Feature>): (r: Option<seq<Point>>)
    ensures r.Some? <==> AllCommented(features) && |features| > RotationSize
    ensures r.Some? ==>
      && |r.value| == RotationSize
      && forall i :: 0 <= i < RotationSize ==>
           r.value[i] == features[(i + RotationStart) % RotationSize].coordinates
  {
    if !AllCommented(features) || |features| == 0 then None
    else
      var waylist := seq(|features| - 1, i requires 0 <= i < |features| - 1 => features[i].coordinates);
      if |waylist| < RotationSize then None
      else Some(waylist[RotationStart..RotationSize] + waylist[..RotationStart])
  }

  function PointsOf(features: seq<Feature>): (points: seq<Point>)
    ensures |points| == |features|
    ensures forall i :: 0 <= i < |features| ==> points[i] == features[i].coordinates
  {
    seq(|features|, i requires 0 <= i < |features| => features[i].coordinates)
  }

  /**
   * The reordering is a rotation of the first twelve points: rotating the
   * result by the other seven positions gives them back in file order, so
   * no point is lost or repeated.
   */
  lemma RotationIsUndone(features: seq<Feature>)
    requires ReorderedWaypoints(features).Some?
    ensures var r := ReorderedWaypoints(features).value;
      r[RotationSize - RotationStart..] + r[..RotationSize - RotationStart] == PointsOf(features)[..RotationSize]
    ensures multiset(ReorderedWaypoints(features).value) == multiset(PointsOf(features)[..RotationSize])
  {
    var r := ReorderedWaypoints(features).value;
    var back := r[RotationSize - RotationStart..] + r[..RotationSize - RotationStart];
    var first := PointsOf(features)[..RotationSize];
    forall i | 0 <= i < RotationSize
      ensures back[i] == first[i]
    {
      if i < RotationStart {
        assert back[i] == r[i + RotationSize - RotationStart];
      } else {
        assert back[i] == r[i - RotationStart];
      }
    }
    assert back == first;
    assert r == r[..RotationSize - RotationStart] + r[RotationSize - RotationStart..];
  }
}
