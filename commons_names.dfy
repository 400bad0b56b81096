/**
 * The `waypointNames` string built by the route requests of Commons.kt: labels
 * accumulated in a string, with a ';' added before a label only while the
 * accumulator is already non-empty.
 */
module WaypointNames {

  import opened Basics

  const Separator: char := ';'

  /** One step of the accumulation: a separator only once the accumulator is non-empty. */
  function AppendName(acc: string, name: string): string {
    (if acc != "" then acc + [Separator] else acc) + name
  }

  /** The accumulator after every label has been appended, in order. */
  function AccumulatedNames(labels: seq<string>): string
  {
    if labels == [] then ""
    else AppendName(AccumulatedNames(labels[..|labels| - 1]), labels[|labels| - 1])
  }

  /** Reference definition: the labels joined by ';', one separator between neighbours. */
  function Join(labels: seq<string>): string
  {
    if |labels| == 0 then ""
    else if |labels| == 1 then labels[0]
    else labels[0] + [Separator] + Join(labels[1..])
  }

  /** The labels that remain once every leading empty label is dropped. */
  function DropLeadingEmpty(labels: seq<string>): (rest: seq<string>)
    ensures rest == [] || rest[0] != ""
  {
    if labels == [] then []
    else if labels[0] == "" then DropLeadingEmpty(labels[1..])
    else labels
  }

  /** What is dropped is a run of empty labels at the front, and the rest is kept as is. */
  lemma {:induction false} DropLeadingEmptyIsSuffix(labels: seq<string>)
    ensures var rest := DropLeadingEmpty(labels);
      && |rest| <= |labels| && rest == labels[|labels| - |rest|..]
      && forall i :: 0 <= i < |labels| - |rest| ==> labels[i] == ""
    decreases |labels|
  {
    if labels != [] && labels[0] == "" {
      DropLeadingEmptyIsSuffix(labels[1..]);
    }
  }

  /** Index of the first occurrence of `c` in `s`. */
  function IndexOf(s: string, c: char): (i: nat)
    requires c in s
    ensures i < |s| && s[i] == c && c !in s[..i]
  {
    if s[0] == c then 0 else 1 + IndexOf(s[1..], c)
  }

  /** Splits at every ';' (the inverse of Join for labels free of ';'). */
  function Split(s: string): (parts: seq<string>)
    ensures |parts| >= 1
    decreases |s|
  {
    if Separator !in s then [s]
    else
      var i := IndexOf(s, Separator);
      [s[..i]] + Split(s[i + 1..])
  }

  predicate NoSeparator(labels: seq<string>) {
    forall i :: 0 <= i < |labels| ==> Separator !in labels[i]
  }

  lemma {:induction false} JoinAppend(labels: seq<string>, x: string)
    requires |labels| > 0
    ensures Join(labels + [x]) == Join(labels) + [Separator] + x
    decreases |labels|
  {
    if |labels| == 1 {
      assert labels + [x] == [labels[0], x];
      assert [labels[0], x][1..] == [x];
    } else {
      assert (labels + [x])[1..] == labels[1..] + [x];
      JoinAppend(labels[1..], x);
    }
  }

  /** A join whose first label is non-empty is non-empty. */
  lemma JoinNonEmpty(labels: seq<string>)
    requires labels != [] && labels[0] != ""
    ensures Join(labels) != ""
  {
    if |labels| > 1 {
      assert Join(labels) == labels[0] + [Separator] + Join(labels[1..]);
    }
  }

  /**
   * The accumulation equals the plain ';'-join of the labels once the leading
   * empty labels are dropped: no separator is written while the accumulator is empty.
   */
  lemma {:induction false} AccumulatedNamesIsJoin(labels: seq<string>)
    ensures AccumulatedNames(labels) == Join(DropLeadingEmpty(labels))
    decreases |labels|
  {
    if labels != [] {
      var p := labels[..|labels| - 1];
      AccumulatedNamesIsJoin(p);
      DropLast(labels);
      JoinStep(DropLeadingEmpty(p), labels[|labels| - 1]);
    }
  }

  /** Dropping the leading empty labels of a list, in terms of its prefix and last label. */
  lemma {:induction false} DropLast(labels: seq<string>)
    requires labels != []
    ensures
      var d, x := DropLeadingEmpty(labels[..|labels| - 1]), labels[|labels| - 1];
      DropLeadingEmpty(labels) == if d == [] then (if x == "" then [] else [x]) else d + [x]
    decreases |labels|
  {
    var p, x := labels[..|labels| - 1], labels[|labels| - 1];
    if |labels| == 1 {
      assert p == [];
      assert labels[1..] == [];
    } else if labels[0] == "" {
      var tail := labels[1..];
      assert tail[..|tail| - 1] == p[1..];
      assert tail[|tail| - 1] == x;
      DropLast(tail);
    } else {
      assert p[0] != "";
      assert labels == p + [x];
    }
  }

  /** One accumulation step on a join whose first label is non-empty is again a join. */
  lemma JoinStep(d: seq<string>, x: string)
    requires d == [] || d[0] != ""
    ensures AppendName(Join(d), x) == Join(if d == [] then (if x == "" then [] else [x]) else d + [x])
  {
    if d != [] {
      JoinNonEmpty(d);
      JoinAppend(d, x);
    }
  }

  /** When the first label is non-empty (in particular when all are), the result is the plain join. */
  lemma AccumulatedNamesWhenFirstNonEmpty(labels: seq<string>)
    requires |labels| > 0 && labels[0] != ""
    ensures AccumulatedNames(labels) == Join(labels)
  {
    AccumulatedNamesIsJoin(labels);
  }

  /** The leading-empty quirk on a concrete input: no separator before "a". */
  lemma LeadingEmptyLabelWritesNoSeparator()
    ensures AccumulatedNames(["", "a"]) == "a"
    ensures Join(["", "a"]) == ";a"
  {
    AccumulatedNamesIsJoin(["", "a"]);
    assert DropLeadingEmpty(["", "a"]) == ["a"] by {
      assert ["", "a"][1..] == ["a"];
    }
  }

  /** Joining n labels free of ';' writes exactly n - 1 separators. */
  lemma {:induction false} JoinSeparatorCount(labels: seq<string>)
    requires |labels| > 0 && NoSeparator(labels)
    ensures Count(Join(labels), Separator) == |labels| - 1
    decreases |labels|
  {
    if |labels| == 1 {
      assert Separator !in labels[0];
    } else {
      assert Separator !in labels[0];
      JoinSeparatorCount(labels[1..]);
      CountAppend(labels[0], [Separator] + Join(labels[1..]), Separator);
      CountAppend([Separator], Join(labels[1..]), Separator);
      assert labels[0] + [Separator] + Join(labels[1..]) == labels[0] + ([Separator] + Join(labels[1..]));
      assert Count([Separator], Separator) == 1 by {
        assert [Separator][..0] == [];
      }
    }
  }

  /** Splitting the join of labels free of ';' gives back every label at its index. */
  lemma {:induction false} SplitJoin(labels: seq<string>)
    requires |labels| > 0 && NoSeparator(labels)
    ensures Split(Join(labels)) == labels
    decreases |labels|
  {
    if |labels| == 1 {
      assert Separator !in labels[0];
    } else {
      var head, tail := labels[0], labels[1..];
      assert Separator !in head;
      SplitAfterLabel(head, Join(tail));
      SplitJoin(tail);
      assert labels == [head] + tail;
    }
  }

  /** Splitting a ';'-free label, a ';' and the rest yields the label, then the split of the rest. */
  lemma SplitAfterLabel(head: string, rest: string)
    requires Separator !in head
    ensures Split(head + [Separator] + rest) == [head] + Split(rest)
  {
    var joined := head + [Separator] + rest;
    assert joined[|head|] == Separator;
    var i := IndexOf(joined, Separator);
    assert i == |head| by {
      assert joined[..|head|] == head;
    }
    assert joined[..i] == head;
    assert joined[i + 1..] == rest;
  }
}
