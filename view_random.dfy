/**
 * `addRandomPoints`: the random fixture's features become numbered waypoints
 * appended to the base trip, at most 402 of them, before the trip is sent to
 * the optimization workflow.
 */
module RandomPoints {

  import opened GeoJson
  import opened OptimizationPayload

  /** The loop breaks after processing index 401, the first index above 400. */
  const MaxRandomPoints: nat := 402

  const WaypointType: string := "waypoint"
  const WaypointPrefix: string := "中継点"

  function DigitChar(d: nat): char
    requires d < 10
  {
    ('0' as int + d) as char
  }

  function DigitValue(c: char): int {
    c as int - '0' as int
  }

  /** The decimal text of a non-negative Int, as string templates write it. */
  function DecimalText(n: nat): (s: string)
    ensures |s| >= 1
    ensures forall k :: 0 <= k < |s| ==> '0' <= s[k] <= '9'
    decreases n
  {
    if n < 10 then [DigitChar(n)] else DecimalText(n / 10) + [DigitChar(n % 10)]
  }

  /** Reads a string of digits back as a number. */
  function DecimalValue(s: string): int {
    if s == [] then 0 else DecimalValue(s[..|s| - 1]) * 10 + DigitValue(s[|s| - 1])
  }

  lemma {:induction false} DecimalRoundTrip(n: nat)
    ensures DecimalValue(DecimalText(n)) == n
    decreases n
  {
    var s := DecimalText(n);
    if n >= 10 {
      var q, d := n / 10, n % 10;
      assert n == q * 10 + d;
      assert s == DecimalText(q) + [DigitChar(d)];
      assert s[..|s| - 1] == DecimalText(q);
      assert DigitValue(s[|s| - 1]) == d;
      DecimalRoundTrip(q);
    } else {
      assert DigitValue(s[0]) == n;
      assert s[..0] == [];
    }
  }

  /** The comment of the i-th random waypoint. */
  function WaypointLabel(i: nat): string {
    WaypointPrefix + DecimalText(i)
  }

  /** Different indices give different labels, and no label is a start or end sentinel. */
  lemma WaypointLabelsDistinct(i: nat, j: nat)
    ensures WaypointLabel(i) == WaypointLabel(j) <==> i == j
    ensures !IsSentinel(WaypointLabel(i))
  {
    if WaypointLabel(i) == WaypointLabel(j) {
      var p := |WaypointPrefix|;
      assert DecimalText(i) == WaypointLabel(i)[p..];
      assert DecimalText(j) == WaypointLabel(j)[p..];
      DecimalRoundTrip(i);
      DecimalRoundTrip(j);
    }
    assert WaypointLabel(i)[0] == '中';
    assert StartLabel[0] == 'ス' && EndLabel[0] == 'エ';
  }

  /** The i-th random feature after its properties are overwritten. */
  function Waypoint(f: Feature, i: nat): Feature {
    Feature(f.coordinates, f.properties[TypeKey := WaypointType][CommentKey := WaypointLabel(i)])
  }

  /** The first `count` random features, as waypoints. */
  function RandomWaypoints(random: seq<Feature>, count: nat): (waypoints: seq<Feature>)
    requires count <= |random|
    ensures |waypoints| == count
  {
    seq(count, i requires 0 <= i < count => Waypoint(random[i], i))
  }

  /** How many random features the loop processes. */
  function Processed(n: nat): (count: nat)
    ensures count <= n && count <= MaxRandomPoints
    ensures count == n || count == MaxRandomPoints
  {
    if n <= MaxRandomPoints then n else MaxRandomPoints
  }

  /**
   * The loop of `addRandomPoints`: each random feature in order is marked a
   * waypoint, numbered by its index, and appended to the base features; its
   * point joins the circles drawn. The loop stops after index 401.
   */
  method AddRandomPoints(base: seq<Feature>, random: seq<Feature>) returns (features: seq<Feature>, points: seq<Point>)
    ensures |points| == Processed(|random|)
    ensures features == base + RandomWaypoints(random, |points|)
    ensures forall i :: 0 <= i < |points| ==> points[i] == random[i].coordinates
  {
    features, points := base, [];
    var i := 0;
    while i < |random|
      invariant 0 <= i <= |random| && i < MaxRandomPoints
      invariant |points| == i
      invariant features == base + RandomWaypoints(random, i)
      invariant forall k :: 0 <= k < i ==> points[k] == random[k].coordinates
    {
      var element := random[i];
      var properties := element.properties[TypeKey := WaypointType];
      properties := properties[CommentKey := WaypointPrefix + DecimalText(i)];
      features := features + [Feature(element.coordinates, properties)];
      points := points + [element.coordinates];
      assert RandomWaypoints(random, i + 1) == RandomWaypoints(random, i) + [Waypoint(random[i], i)];
      if i > 400 {
        i := i + 1;
        break;
      }
      i := i + 1;
    }
  }

  /** Every appended waypoint is a service of the optimization request, in order. */
  lemma RandomWaypointsAreServices(random: seq<Feature>, count: nat)
    requires count <= |random|
    ensures AllCommented(RandomWaypoints(random, count))
    ensures ServicesFor(CommentsOf(RandomWaypoints(random, count))) ==
      seq(count, i requires 0 <= i < count => Service(WaypointLabel(i), WaypointLabel(i)))
  {
    var labels := CommentsOf(RandomWaypoints(random, count));
    forall i | 0 <= i < count
      ensures !IsSentinel(labels[i])
    {
      WaypointLabelsDistinct(i, i);
    }
    NoSentinelAllServices(labels);
  }

  /** With a fully commented base, the whole trip yields a payload: nothing throws. */
  lemma RandomTripIsCommented(base: seq<Feature>, random: seq<Feature>, count: nat)
    requires AllCommented(base) && count <= |random|
    ensures AllCommented(base + RandomWaypoints(random, count))
  {
    var all := base + RandomWaypoints(random, count);
    forall i | 0 <= i < |all|
      ensures HasComment(all[i])
    {
      if i >= |base| {
        assert all[i] == Waypoint(random[i - |base|], i - |base|);
      }
    }
  }
}
