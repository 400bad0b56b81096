/**
 * The request body `makeOptimizationRequest` sends to the trip-optimization
 * service: every stop becomes a location, and every stop but the start and
 * end sentinels also becomes a service to visit.
 */
module OptimizationPayload {

  import opened Basics
  import opened GeoJson

  const StartLabel: string := "スタート"
  const EndLabel: string := "エンド"

  predicate IsSentinel(comment: string) {
    comment == StartLabel || comment == EndLabel
  }

  datatype Location = Location(name: string, coordinates: Point)

  datatype Service = Service(name: string, location: string)

  /** The `locations` and `services` arrays of the request body. */
  datatype Payload = Payload(locations: seq<Location>, services: seq<Service>)

  /** The locations added for a list of stop features, in input order. */
  function LocationsOf(features: seq<Feature>): (locations: seq<Location>)
    requires AllCommented(features)
    ensures |locations| == |features|
    ensures forall i :: 0 <= i < |features| ==> locations[i] == Location(CommentOf(features[i]), features[i].coordinates)
  {
    seq(|features|, i requires 0 <= i < |features| => Location(CommentOf(features[i]), features[i].coordinates))
  }

  /** The services added for a list of stop labels, in label order. */
  function ServicesFor(labels: seq<string>): seq<Service> {
    if labels == [] then []
    else
      var last := labels[|labels| - 1];
      ServicesFor(labels[..|labels| - 1]) + (if IsSentinel(last) then [] else [Service(last, last)])
  }

  /** One more label adds its service, unless it is a sentinel. */
  lemma ServicesForSnoc(labels: seq<string>, comment: string)
    ensures ServicesFor(labels + [comment]) ==
      ServicesFor(labels) + (if IsSentinel(comment) then [] else [Service(comment, comment)])
  {
    assert (labels + [comment])[..|labels|] == labels;
  }

  /** How many labels are a sentinel. */
  function SentinelCount(labels: seq<string>): nat {
    if labels == [] then 0
    else SentinelCount(labels[..|labels| - 1]) + (if IsSentinel(labels[|labels| - 1]) then 1 else 0)
  }

  /**
   * `makeOptimizationRequest`'s payload loop, run on the body read from the
   * template file. A feature without a "comment" property stops the loop
   * (`getString` throws) and nothing is sent.
   */
  method BuildPayload(template: Payload, features: seq<Feature>) returns (r: Result<Payload, string>)
    ensures r.Ok? <==> AllCommented(features)
    ensures r.Ok? ==> r.value == Payload(
      template.locations + LocationsOf(features),
      template.services + ServicesFor(CommentsOf(features)))
  {
    var locations := template.locations;
    var services := template.services;
    var i := 0;
    ghost var labels: seq<string> := [];
    ghost var added: seq<Location> := [];
    while i < |features|
      invariant 0 <= i <= |features|
      invariant |labels| == i && |added| == i
      invariant forall k :: 0 <= k < i ==> HasComment(features[k]) && labels[k] == CommentOf(features[k])
      invariant forall k :: 0 <= k < i ==> added[k] == Location(labels[k], features[k].coordinates)
      invariant locations == template.locations + added
      invariant services == template.services + ServicesFor(labels)
    {
      var feature := features[i];
      if CommentKey !in feature.properties {
        assert !HasComment(features[i]);
        return Err("JSONException: no value for comment");
      }
      var comment := feature.properties[CommentKey];
      locations := locations + [Location(comment, feature.coordinates)];
      added := added + [Location(comment, feature.coordinates)];
      ServicesForSnoc(labels, comment);
      labels := labels + [comment];
      i := i + 1;
      if comment == StartLabel || comment == EndLabel {
        continue;
      }
      services := services + [Service(comment, comment)];
    }
    assert labels == CommentsOf(features);
    assert added == LocationsOf(features);
    r := Ok(Payload(locations, services));
  }

  /** Every non-sentinel label adds exactly one service, and no sentinel adds one. */
  lemma {:induction false} ServicesCount(labels: seq<string>)
    ensures |ServicesFor(labels)| == |labels| - SentinelCount(labels)
    ensures SentinelCount(labels) <= |labels|
    decreases |labels|
  {
    if labels != [] {
      ServicesCount(labels[..|labels| - 1]);
    }
  }

  /** A label is a service exactly when it occurs and is not a sentinel; name and location agree. */
  lemma {:induction false} ServiceMembership(labels: seq<string>, s: Service)
    ensures s in ServicesFor(labels) <==> s.name == s.location && s.name in labels && !IsSentinel(s.name)
    decreases |labels|
  {
    if labels != [] {
      var prefix, last := labels[..|labels| - 1], labels[|labels| - 1];
      ServiceMembership(prefix, s);
      assert labels == prefix + [last];
      assert s.name in labels <==> s.name in prefix || s.name == last;
    }
  }

  /** The services follow input order: the services of a concatenation concatenate. */
  lemma {:induction false} ServicesForAppend(a: seq<string>, b: seq<string>)
    ensures ServicesFor(a + b) == ServicesFor(a) + ServicesFor(b)
    decreases |b|
  {
    if b == [] {
      assert a + b == a;
    } else {
      var b' := b[..|b| - 1];
      assert (a + b)[..|a + b| - 1] == a + b';
      assert (a + b)[|a + b| - 1] == b[|b| - 1];
      ServicesForAppend(a, b');
    }
  }

  /** Labels none of which is a sentinel each become one service, in order. */
  lemma {:induction false} NoSentinelAllServices(labels: seq<string>)
    requires forall i :: 0 <= i < |labels| ==> !IsSentinel(labels[i])
    ensures ServicesFor(labels) == seq(|labels|, i requires 0 <= i < |labels| => Service(labels[i], labels[i]))
    decreases |labels|
  {
    if labels != [] {
      var prefix := labels[..|labels| - 1];
      NoSentinelAllServices(prefix);
    }
  }

  /** A start and an end stop alone add two locations and no service. */
  lemma StartAndEndOnly()
    ensures ServicesFor([StartLabel, EndLabel]) == []
  {
    assert [StartLabel][..0] == [];
    assert ServicesFor([StartLabel]) == [];
    assert [StartLabel, EndLabel][..1] == [StartLabel];
  }
}
