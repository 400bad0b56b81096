/**
 * The card of the horizontal result list (`onBindViewHolder`): each field of
 * an annotation's JSON data is shown through its JSON text with every '"'
 * removed, and the category is reduced to the text after its last '>'.
 */
module LocationCard {

  import opened Basics
  import opened Annotations
  import opened View

  const Quote: char := '"'
  const Backslash: char := '\\'
  const CategorySeparator: char := '>'

  /** The JSON string escaping of quotes and backslashes. */
  function Escaped(s: string): string {
    if s == [] then ""
    else (if s[0] == Quote || s[0] == Backslash then [Backslash, s[0]] else [s[0]]) + Escaped(s[1..])
  }

  /** `JsonElement.toString()` of a property set by `addProperty`: `null` for an absent value. */
  function JsonText(v: Option<string>): string {
    match v
    case None => "null"
    case Some(s) => [Quote] + Escaped(s) + [Quote]
  }

  /** `replace("\"", "")`: every quote removed, everything else kept in order. */
  function WithoutQuotes(s: string): string
  {
    if s == [] then ""
    else (if s[0] == Quote then "" else [s[0]]) + WithoutQuotes(s[1..])
  }

  /** No quote survives, and nothing is added. */
  lemma {:induction false} WithoutQuotesRemovesQuotes(s: string)
    ensures Quote !in WithoutQuotes(s)
    ensures |WithoutQuotes(s)| <= |s|
    decreases |s|
  {
    if s != [] {
      WithoutQuotesRemovesQuotes(s[1..]);
    }
  }

  /** The text a card shows for one JSON property. */
  function Shown(v: Option<string>): string {
    WithoutQuotes(JsonText(v))
  }

  lemma {:induction false} WithoutQuotesAppend(a: string, b: string)
    ensures WithoutQuotes(a + b) == WithoutQuotes(a) + WithoutQuotes(b)
    decreases |a|
  {
    if a == [] {
      assert a + b == b;
    } else {
      assert (a + b)[0] == a[0];
      assert (a + b)[1..] == a[1..] + b;
      WithoutQuotesAppend(a[1..], b);
    }
  }

  lemma {:induction false} PlainTextUnescaped(s: string)
    requires Quote !in s && Backslash !in s
    ensures Escaped(s) == s
    decreases |s|
  {
    if s != [] {
      var head, tail := s[0], s[1..];
      assert s == [head] + tail;
      assert head != Quote && head != Backslash;
      assert Quote !in tail && Backslash !in tail;
      PlainTextUnescaped(tail);
    }
  }

  /** A value free of quotes and backslashes is shown exactly as stored; an absent one as "null". */
  lemma ShownRoundTrip(s: string)
    requires Quote !in s && Backslash !in s
    ensures Shown(Some(s)) == s
    ensures Shown(None) == "null"
  {
    PlainTextUnescaped(s);
    UnquoteTrailing([Quote] + s);
    UnquoteLeading(s);
    assert WithoutQuotes("null") == "null" by { WithoutQuotesUnchanged("null"); }
  }

  lemma {:induction false} EscapedAppend(a: string, b: string)
    ensures Escaped(a + b) == Escaped(a) + Escaped(b)
    decreases |a|
  {
    if a == [] {
      assert a + b == b;
    } else {
      assert (a + b)[0] == a[0];
      assert (a + b)[1..] == a[1..] + b;
      EscapedAppend(a[1..], b);
    }
  }

  lemma EscapedEmbeddedQuote(a: string, b: string)
    requires Quote !in a && Backslash !in a && Quote !in b && Backslash !in b
    ensures Escaped(a + [Quote] + b) == a + [Backslash, Quote] + b
  {
    PlainTextUnescaped(a);
    PlainTextUnescaped(b);
    assert Escaped([Quote]) == [Backslash, Quote] by { assert [Quote][1..] == []; }
    EscapedAppend(a + [Quote], b);
    EscapedAppend(a, [Quote]);
  }

  lemma UnquoteLeading(s: string)
    requires Quote !in s
    ensures WithoutQuotes([Quote] + s) == s
  {
    assert ([Quote] + s)[1..] == s;
    WithoutQuotesUnchanged(s);
  }

  lemma UnquoteTrailing(s: string)
    ensures WithoutQuotes(s + [Quote]) == WithoutQuotes(s)
  {
    WithoutQuotesAppend(s, [Quote]);
    assert [Quote][1..] == [];
  }

  lemma UnquotedEscapedQuote(a: string, b: string)
    requires Quote !in a && Quote !in b
    ensures WithoutQuotes([Quote] + (a + [Backslash, Quote] + b) + [Quote]) == a + [Backslash] + b
  {
    var head, tail := [Quote] + (a + [Backslash]), [Quote] + b;
    assert [Quote] + (a + [Backslash, Quote] + b) + [Quote] == head + tail + [Quote];
    UnquoteTrailing(head + tail);
    WithoutQuotesAppend(head, tail);
    UnquoteLeading(a + [Backslash]);
    UnquoteLeading(b);
  }

  lemma {:induction false} WithoutQuotesUnchanged(s: string)
    requires Quote !in s
    ensures WithoutQuotes(s) == s
    decreases |s|
  {
    if s != [] {
      assert s[0] in s;
      assert forall c :: c in s[1..] ==> c in s;
      WithoutQuotesUnchanged(s[1..]);
    }
  }

  /** A quote inside a value leaves its escaping backslash on the card. */
  lemma EmbeddedQuoteShowsBackslash(a: string, b: string)
    requires Quote !in a && Backslash !in a && Quote !in b && Backslash !in b
    ensures Shown(Some(a + [Quote] + b)) == a + [Backslash] + b
  {
    EscapedEmbeddedQuote(a, b);
    UnquotedEscapedQuote(a, b);
  }

  /** `lastIndexOf`: the index of the last `c` in `s`, or -1. */
  function LastIndexOf(s: string, c: char): (i: int)
    ensures -1 <= i < |s|
    ensures i == -1 <==> c !in s
    ensures i >= 0 ==> s[i] == c
    ensures forall j :: i < j < |s| ==> s[j] != c
  {
    if s == [] then -1
    else if s[|s| - 1] == c then |s| - 1
    else
      assert s == s[..|s| - 1] + [s[|s| - 1]];
      LastIndexOf(s[..|s| - 1], c)
  }

  /** The category label: the last '>'-separated part in parentheses, or nothing. */
  function CategoryLabel(category: string): string {
    if CategorySeparator in category then
      "(" + category[LastIndexOf(category, CategorySeparator) + 1..] + ")"
    else ""
  }

  /** A hierarchy `path>leaf` is labelled by its leaf alone; a category without '>' gets no label. */
  lemma CategoryLabelIsLeaf(path: string, leaf: string)
    requires CategorySeparator !in leaf
    ensures CategoryLabel(path + [CategorySeparator] + leaf) == "(" + leaf + ")"
    ensures CategoryLabel(leaf) == ""
  {
    var s := path + [CategorySeparator] + leaf;
    assert s[|path|] == CategorySeparator;
    assert forall j :: |path| < j < |s| ==> s[j] == leaf[j - |path| - 1];
    assert LastIndexOf(s, CategorySeparator) == |path|;
    assert s[|path| + 1..] == leaf;
  }

  lemma ShownCategoryLabel(path: string, leaf: string)
    requires Quote !in path && Backslash !in path && Quote !in leaf && Backslash !in leaf
    requires CategorySeparator !in leaf
    ensures CategoryLabel(Shown(Some(path + [CategorySeparator] + leaf))) == "(" + leaf + ")"
  {
    var category := path + [CategorySeparator] + leaf;
    assert Quote !in category && Backslash !in category;
    ShownRoundTrip(category);
    CategoryLabelIsLeaf(path, leaf);
  }

  /** A text the JSON escaping leaves as it is: no quote and no backslash. */
  predicate Plain(s: string) {
    Quote !in s && Backslash !in s
  }

  /** A shown field never holds a quote; a plain one is shown as stored, an absent one as "null". */
  lemma ShownText(v: Option<string>)
    ensures Quote !in Shown(v)
    ensures v.Some? && Plain(v.value) ==> Shown(v) == v.value
    ensures v.None? ==> Shown(v) == "null"
  {
    WithoutQuotesRemovesQuotes(JsonText(v));
    if v.Some? && Plain(v.value) {
      ShownRoundTrip(v.value);
    }
    if v.None? {
      WithoutQuotesUnchanged("null");
    }
  }

  /** The label is cut from its category text, so it adds no quote. */
  lemma CategoryLabelWithoutQuotes(category: string)
    requires Quote !in category
    ensures Quote !in CategoryLabel(category)
  {
    if CategorySeparator in category {
      var leaf := category[LastIndexOf(category, CategorySeparator) + 1..];
      assert forall c :: c in leaf ==> c in category;
      assert CategoryLabel(category) == "(" + leaf + ")";
    }
  }

  /** The three texts of a card. */
  datatype Card = Card(name: string, address: string, distance: string)

  /**
   * The card for one annotation's data: no text on it holds a quote, the
   * distance reads "<distance> m", and plain address and distance texts are
   * shown as stored.
   */
  function CardOf(data: PlaceData): (card: Card)
    ensures Quote !in card.name && Quote !in card.address && Quote !in card.distance
    ensures |card.distance| >= 2 && card.distance[|card.distance| - 2..] == " m"
    ensures Plain(data.distance) ==> card.distance == data.distance + " m"
    ensures data.address.Some? && Plain(data.address.value) ==> card.address == data.address.value
    ensures data.address.None? ==> card.address == "null"
  {
    ShownText(data.category);
    CategoryLabelWithoutQuotes(Shown(data.category));
    ShownText(Some(data.name));
    ShownText(data.address);
    ShownText(Some(data.distance));
    Card(CategoryLabel(Shown(data.category)) + " " + Shown(Some(data.name)),
         Shown(data.address),
         Shown(Some(data.distance)) + " m")
  }

  /** A result named `name` whose stored category is `path>leaf` reads "(leaf) name". */
  lemma CardNameOfCategorisedResult(data: PlaceData, path: string, leaf: string)
    requires Quote !in data.name && Backslash !in data.name
    requires Quote !in path && Backslash !in path && Quote !in leaf && Backslash !in leaf
    requires CategorySeparator !in leaf
    requires data.category == Some(path + [CategorySeparator] + leaf)
    ensures CardOf(data).name == "(" + leaf + ")" + " " + data.name
  {
    assert CategoryLabel(Shown(data.category)) == "(" + leaf + ")" by {
      ShownCategoryLabel(path, leaf);
    }
    assert Shown(Some(data.name)) == data.name by {
      ShownRoundTrip(data.name);
    }
  }

  /** A result without a category reads " name": the label is empty but the space stays. */
  lemma CardNameOfUncategorisedResult(data: PlaceData)
    requires Quote !in data.name && Backslash !in data.name
    requires data.category == None
    ensures CardOf(data).name == " " + data.name
  {
    assert CategoryLabel(Shown(data.category)) == "" by {
      ShownRoundTrip(data.name);
      assert CategorySeparator !in "null";
    }
    assert Shown(Some(data.name)) == data.name by {
      ShownRoundTrip(data.name);
    }
  }

  /** The card name of a plain-named result, with and without a `path>leaf` category. */
  lemma CardName(data: PlaceData)
    ensures Plain(data.name) && data.category.None? ==> CardOf(data).name == " " + data.name
    ensures forall path, leaf ::
      Plain(data.name) && Plain(path) && Plain(leaf) && CategorySeparator !in leaf &&
      data.category == Some(path + [CategorySeparator] + leaf) ==>
        CardOf(data).name == "(" + leaf + ")" + " " + data.name
  {
    if Plain(data.name) && data.category.None? {
      CardNameOfUncategorisedResult(data);
    }
    forall path, leaf |
      Plain(data.name) && Plain(path) && Plain(leaf) && CategorySeparator !in leaf &&
      data.category == Some(path + [CategorySeparator] + leaf)
      ensures CardOf(data).name == "(" + leaf + ")" + " " + data.name
    {
      CardNameOfCategorisedResult(data, path, leaf);
    }
  }

  /**
   * `onBindViewHolder`: the card at `position` shows the options entry at
   * that position; the holder remembers the position as its index.
   */
  function BindViewHolder(vh: ViewHelper, position: int): (bound: (Card, int))
    reads vh, vh.manager
    requires vh.Valid() && 0 <= position < vh.ItemCount()
    ensures bound.1 == position
    ensures var data := vh.locationOptionsList[position].data;
      && Quote !in bound.0.name && Quote !in bound.0.address && Quote !in bound.0.distance
      && (Plain(data.name) && data.category.None? ==> bound.0.name == " " + data.name)
      && (forall path, leaf ::
            Plain(data.name) && Plain(path) && Plain(leaf) && CategorySeparator !in leaf &&
            data.category == Some(path + [CategorySeparator] + leaf) ==>
              bound.0.name == "(" + leaf + ")" + " " + data.name)
      && (Plain(data.distance) ==> bound.0.distance == data.distance + " m")
      && (data.address.Some? && Plain(data.address.value) ==> bound.0.address == data.address.value)
  {
    var data := vh.locationOptionsList[position].data;
    CardName(data);
    (CardOf(data), position)
  }
}
