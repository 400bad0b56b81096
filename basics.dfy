/** Shared value types: optional values, results, and a counting helper. */
module Basics {

  datatype Option<+T> = None | Some(value: T)

  datatype Result<+T, +E> = Ok(value: T) | Err(error: E)

  /** Number of occurrences of `x` in `s`. */
  function Count<T(==)>(s: seq<T>, x: T): (n: nat)
    ensures n <= |s|
    ensures n == 0 <==> x !in s
  {
    if s == [] then 0
    else Count(s[..|s| - 1], x) + (if s[|s| - 1] == x then 1 else 0)
  }

  lemma {:induction false} CountAppend<T>(a: seq<T>, b: seq<T>, x: T)
    ensures Count(a + b, x) == Count(a, x) + Count(b, x)
    decreases |b|
  {
    if b == [] {
      assert a + b == a;
    } else {
      var b' := b[..|b| - 1];
      assert (a + b)[..|a + b| - 1] == a + b';
      CountAppend(a, b', x);
    }
  }

  /** Extending a prefix by one element. */
  lemma TakeOneMore<T>(s: seq<T>, i: nat)
    requires i < |s|
    ensures s[..i + 1] == s[..i] + [s[i]]
  {
  }
}

/** GeoJSON features as the app reads them from its fixture files. */
module GeoJson {

  /**
   * A GeoJSON position [lon, lat] (section 3.1.1 of RFC 7946), written as
   * fixed-point integers counted in units of 1e-5 degree.
   */
  datatype Point = Point(lon: int, lat: int)

  /** A feature: its point geometry and its string-valued properties. */
  datatype Feature = Feature(coordinates: Point, properties: map<string, string>)

  const CommentKey: string := "comment"
  const TypeKey: string := "type"

  predicate HasComment(f: Feature) {
    CommentKey in f.properties
  }

  function CommentOf(f: Feature): string
    requires HasComment(f)
  {
    f.properties[CommentKey]
  }

  predicate AllCommented(features: seq<Feature>) {
    forall i :: 0 <= i < |features| ==> HasComment(features[i])
  }

  /** The "comment" property of every feature, in order. */
  function CommentsOf(features: seq<Feature>): (comments: seq<string>)
    requires AllCommented(features)
    ensures |comments| == |features|
    ensures forall i :: 0 <= i < |features| ==> comments[i] == CommentOf(features[i])
  {
    seq(|features|, i requires 0 <= i < |features| => CommentOf(features[i]))
  }
}
