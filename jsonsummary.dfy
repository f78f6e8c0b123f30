/**
 * `generate_json_summary`: an outline of a JSON value, one line per entry, each line
 * indented by two spaces per level. The outline is built first as a sequence of lines
 * (a depth and what the line says) and then rendered to text.
 */
module JsonSummary {
  import opened Wrappers
  import opened Strings
  import opened Json

  /** What one line of the outline says. */
  datatype Entry =
    | ObjectHeader(key: string, keyCount: nat, root: bool)
    | ArrayHeader(key: string, itemCount: nat)
    | AllItemsAre(typeName: string)
    | MixedTypes(typeNames: set<string>)
    | FirstItemStructure
    | StringEntry(key: string, length: nat, preview: string)
    | NumberEntry(key: string, number: string)
    | BoolEntry(key: string, b: bool)
    | NullEntry(key: string)

  /** A line of the outline at indentation level `depth`. */
  datatype Line = Line(depth: nat, entry: Entry)

  /** The lines that name a value by its key; the others describe an array's items. */
  predicate Keyed(e: Entry) {
    !e.AllItemsAre? && !e.MixedTypes? && !e.FirstItemStructure?
  }

  /** The longest string shown whole. */
  const PreviewLimit := 50
  /** How much of a longer string is shown before "...". */
  const PreviewKept := 47

  /** The preview of a string value: the string itself up to 50 characters, otherwise
      its first 47 characters followed by "...". */
  function Preview(s: string): (r: string)
    ensures |r| <= PreviewLimit
    ensures |s| <= PreviewLimit ==> r == s
    ensures |s| > PreviewLimit ==> |r| == PreviewLimit
    ensures |s| > PreviewLimit ==> r[..PreviewKept] == s[..PreviewKept] && r[PreviewKept..] == "..."
  {
    if |s| > PreviewLimit then s[..PreviewKept] + "..." else s
  }

  /** `arr.iter().all(|v| get_value_type(v) == first_type)`. */
  predicate AllSameType(items: seq<Value>)
    requires items != []
  {
    forall k | 0 <= k < |items| :: ValueType(items[k]) == ValueType(items[0])
  }

  /** The set of type names of the items. */
  function TypesOf(items: seq<Value>): set<string> {
    set k | 0 <= k < |items| :: ValueType(items[k])
  }

  /** The outline of `v` under the name `key`, starting at level `depth`. An object lists
      each member one level deeper. A non-empty array says whether its items share a type
      and, when its first item is an object, outlines that item two levels deeper. */
  function SummaryLines(v: Value, key: string, depth: nat): (ls: seq<Line>)
    ensures |ls| >= 1 && ls[0].depth == depth && Keyed(ls[0].entry) && ls[0].entry.key == key
    decreases v
  {
    match v
    case Object(ms) =>
      [Line(depth, ObjectHeader(key, |ms|, depth == 0))] + MembersLines(ms, depth + 1)
    case Array(items) =>
      [Line(depth, ArrayHeader(key, |items|))] + ItemsLines(items, depth)
    case String(s) => [Line(depth, StringEntry(key, |s|, Preview(s)))]
    case Number(text) => [Line(depth, NumberEntry(key, text))]
    case Bool(b) => [Line(depth, BoolEntry(key, b))]
    case Null => [Line(depth, NullEntry(key))]
  }

  /** The lines under an array header at level `depth`. */
  function ItemsLines(items: seq<Value>, depth: nat): seq<Line>
    decreases items, 0
  {
    if items == [] then []
    else
      [Line(depth, ItemsKind(items))]
      + if items[0].Object? then [Line(depth, FirstItemStructure)] + SummaryLines(items[0], "item", depth + 2)
        else []
  }

  /** The line on an array's item types: the one type all items share, or the set of
      types among them. */
  function ItemsKind(items: seq<Value>): (e: Entry)
    requires items != []
    ensures e.AllItemsAre? || e.MixedTypes?
    ensures e.AllItemsAre? <==> AllSameType(items)
    ensures e.AllItemsAre? ==> e.typeName == ValueType(items[0])
    ensures e.MixedTypes? ==> e.typeNames == TypesOf(items) && |e.typeNames| >= 2
  {
    MixedMeansSeveralTypes(items);
    if AllSameType(items) then AllItemsAre(ValueType(items[0])) else MixedTypes(TypesOf(items))
  }

  /** The members of an object, each outlined at level `depth`, in order. */
  function MembersLines(ms: seq<Member>, depth: nat): seq<Line>
    decreases ms
  {
    if ms == [] then []
    else MembersLines(ms[..|ms| - 1], depth) + SummaryLines(ms[|ms| - 1].value, ms[|ms| - 1].key, depth)
  }

  /** An array's items share a type exactly when they have one type name between them;
      otherwise they have at least two. */
  lemma MixedMeansSeveralTypes(items: seq<Value>)
    requires items != []
    ensures AllSameType(items) <==> TypesOf(items) == {ValueType(items[0])}
    ensures !AllSameType(items) ==> |TypesOf(items)| >= 2
  {
    var first := ValueType(items[0]);
    assert first in TypesOf(items);
    if !AllSameType(items) {
      var k :| 0 <= k < |items| && ValueType(items[k]) != first;
      var other := ValueType(items[k]);
      var both := {first, other};
      assert both <= TypesOf(items);
      assert TypesOf(items) == both + (TypesOf(items) - both);
      assert |both| == 2;
    } else {
      forall t | t in TypesOf(items)
        ensures t == first
      {
        var k :| 0 <= k < |items| && ValueType(items[k]) == t;
      }
    }
  }

  /** The keys of keyed lines at level `depth`, in order. */
  function KeysAt(ls: seq<Line>, depth: nat): seq<string> {
    if ls == [] then [] else KeyAt(ls[0], depth) + KeysAt(ls[1..], depth)
  }

  function KeyAt(l: Line, depth: nat): seq<string> {
    if l.depth == depth && Keyed(l.entry) then [l.entry.key] else []
  }

  lemma {:induction false} KeysAtAppend(a: seq<Line>, b: seq<Line>, depth: nat)
    ensures KeysAt(a + b, depth) == KeysAt(a, depth) + KeysAt(b, depth)
  {
    if a != [] {
      calc {
        KeysAt(a + b, depth);
        { assert (a + b)[0] == a[0]; assert (a + b)[1..] == a[1..] + b; }
        KeyAt(a[0], depth) + KeysAt(a[1..] + b, depth);
        { KeysAtAppend(a[1..], b, depth); }
        KeyAt(a[0], depth) + (KeysAt(a[1..], depth) + KeysAt(b, depth));
      }
    } else {
      assert a + b == b;
    }
  }

  lemma {:induction false} KeysAtDeeper(ls: seq<Line>, depth: nat, hi: int)
    requires Within(ls, depth + 1, hi)
    ensures KeysAt(ls, depth) == []
  {
    if ls != [] {
      KeysAtDeeper(ls[1..], depth, hi);
    }
  }

  /** The keys of an object's members, in order. */
  function Keys(ms: seq<Member>): seq<string> {
    if ms == [] then [] else Keys(ms[..|ms| - 1]) + [ms[|ms| - 1].key]
  }

  /** The lines under an array header: one line on the items' types at the header's
      level and, when the first item is an object, a line announcing its outline followed
      by that outline two levels deeper. */
  lemma ItemsLinesShape(items: seq<Value>, depth: nat)
    requires items != []
    ensures var ls := ItemsLines(items, depth);
      |ls| >= 1 && ls[0].depth == depth && !Keyed(ls[0].entry)
      && (items[0].Object? ==>
            |ls| >= 2 && ls[1] == Line(depth, FirstItemStructure)
            && ls[2..] == SummaryLines(items[0], "item", depth + 2))
      && (!items[0].Object? ==> |ls| == 1)
  {
    var head := [Line(depth, ItemsKind(items))];
    if items[0].Object? {
      var outline := SummaryLines(items[0], "item", depth + 2);
      var rest := [Line(depth, FirstItemStructure)] + outline;
      assert ItemsLines(items, depth) == head + rest;
      assert (head + rest)[2..] == outline;
    } else {
      assert ItemsLines(items, depth) == head;
    }
  }

  /** Every line lies between levels `lo` and `hi`. */
  predicate Within(ls: seq<Line>, lo: nat, hi: int) {
    forall k | 0 <= k < |ls| :: lo <= ls[k].depth <= hi
  }

  lemma WithinAppend(a: seq<Line>, b: seq<Line>, lo: nat, hi: int)
    requires Within(a, lo, hi) && Within(b, lo, hi)
    ensures Within(a + b, lo, hi)
  {
    forall k | 0 <= k < |a + b|
      ensures lo <= (a + b)[k].depth <= hi
    {
      if k >= |a| {
        assert (a + b)[k] == b[k - |a|];
      }
    }
  }

  /** Each child of a container lies at least one level above the container's height. */
  lemma {:induction false} MembersHeight(ms: seq<Member>, k: nat)
    requires k < |ms|
    ensures Tally(ms[k].value).height + 1 <= MembersTally(ms).height
    decreases ms
  {
    if k < |ms| - 1 {
      MembersHeight(ms[..|ms| - 1], k);
    }
  }

  lemma {:induction false} ItemsHeight(items: seq<Value>, k: nat)
    requires k < |items|
    ensures Tally(items[k]).height + 1 <= ItemsTally(items).height
    decreases items
  {
    if k < |items| - 1 {
      ItemsHeight(items[..|items| - 1], k);
    }
  }

  /** The lines of an outline lie from its starting level down to two levels per level
      of the tree below it: an array's first item is outlined two levels below the array. */
  lemma {:induction false} SummaryDepths(v: Value, key: string, depth: nat)
    ensures Within(SummaryLines(v, key, depth), depth, depth + 2 * Tally(v).height)
    decreases v
  {
    match v
    case Object(ms) => ObjectDepths(ms, key, depth);
    case Array(items) => ArrayDepths(items, key, depth);
    case _ =>
  }

  lemma {:induction false} ObjectDepths(ms: seq<Member>, key: string, depth: nat)
    ensures Within(SummaryLines(Object(ms), key, depth), depth, depth + 2 * Tally(Object(ms)).height)
    decreases ms, 2
  {
    var header := Line(depth, ObjectHeader(key, |ms|, depth == 0));
    var h := MembersTally(ms).height;
    assert Tally(Object(ms)).height == h;
    MembersDepths(ms, depth + 1);
    WithinWiden(MembersLines(ms, depth + 1), depth + 1, depth + 2 * h - 1, depth, depth + 2 * h);
    WithinAppend([header], MembersLines(ms, depth + 1), depth, depth + 2 * h);
  }

  lemma WithinWiden(ls: seq<Line>, lo: nat, hi: int, lo': nat, hi': int)
    requires Within(ls, lo, hi) && lo' <= lo && hi <= hi'
    ensures Within(ls, lo', hi')
  {
  }

  lemma {:induction false} ArrayDepths(items: seq<Value>, key: string, depth: nat)
    ensures Within(SummaryLines(Array(items), key, depth), depth, depth + 2 * Tally(Array(items)).height)
    decreases items, 2
  {
    var header := Line(depth, ArrayHeader(key, |items|));
    var hi := depth + 2 * ItemsTally(items).height;
    assert Tally(Array(items)).height == ItemsTally(items).height;
    ItemsDepths(items, depth);
    WithinAppend([header], ItemsLines(items, depth), depth, hi);
  }

  /** The lines under an array header lie from the header's level down to two levels per
      level of the tree below it. */
  lemma {:induction false} ItemsDepths(items: seq<Value>, depth: nat)
    ensures Within(ItemsLines(items, depth), depth, depth + 2 * ItemsTally(items).height)
    decreases items, 1
  {
    if items != [] {
      var hi := depth + 2 * ItemsTally(items).height;
      ItemsLinesShape(items, depth);
      var rest := ItemsLines(items, depth);
      if items[0].Object? {
        var sub := SummaryLines(items[0], "item", depth + 2);
        assert Within(sub, depth, hi) by {
          SummaryDepths(items[0], "item", depth + 2);
          ItemsHeight(items, 0);
          WithinWiden(sub, depth + 2, depth + 2 + 2 * Tally(items[0]).height, depth, hi);
        }
        assert rest == [rest[0], rest[1]] + sub;
        WithinAppend([rest[0], rest[1]], sub, depth, hi);
      } else {
        assert rest == [rest[0]];
      }
    }
  }

  lemma {:induction false} MembersDepths(ms: seq<Member>, depth: nat)
    ensures Within(MembersLines(ms, depth), depth, depth + 2 * MembersTally(ms).height - 2)
    decreases ms, 0
  {
    if ms != [] {
      var init, last := ms[..|ms| - 1], ms[|ms| - 1];
      var hi := depth + 2 * MembersTally(ms).height - 2;
      MembersDepths(init, depth);
      SummaryDepths(last.value, last.key, depth);
      MembersHeight(ms, |ms| - 1);
      assert MembersTally(init).height <= MembersTally(ms).height;
      WithinAppend(MembersLines(init, depth), SummaryLines(last.value, last.key, depth), depth, hi);
    }
  }

  /** An outline names its value once at its own level, by `key`, on its first line; every
      other line at that level describes an array's items. */
  lemma {:induction false} SummaryKeys(v: Value, key: string, depth: nat)
    ensures SummaryLines(v, key, depth)[0] == Line(depth, SummaryLines(v, key, depth)[0].entry)
    ensures KeysAt(SummaryLines(v, key, depth), depth) == [key]
  {
    var ls := SummaryLines(v, key, depth);
    assert ls == [ls[0]] + ls[1..];
    KeysAtAppend([ls[0]], ls[1..], depth);
    match v
    case Object(ms) =>
      MembersDepths(ms, depth + 1);
      KeysAtDeeper(ls[1..], depth, depth + 2 * MembersTally(ms).height - 1);
    case Array(items) =>
      assert ls[1..] == ItemsLines(items, depth);
      ItemsUnkeyed(items, depth);
    case _ =>
  }

  /** No line under an array header names a value at the header's level. */
  lemma ItemsUnkeyed(items: seq<Value>, depth: nat)
    ensures KeysAt(ItemsLines(items, depth), depth) == []
  {
    if items != [] {
      var rest := ItemsLines(items, depth);
      ItemsLinesShape(items, depth);
      if items[0].Object? {
        SummaryDepths(items[0], "item", depth + 2);
        assert rest == [rest[0], rest[1]] + rest[2..];
        KeysAtAppend([rest[0], rest[1]], rest[2..], depth);
        KeysAtDeeper(rest[2..], depth, depth + 2 + 2 * Tally(items[0]).height);
      } else {
        assert rest == [rest[0]];
      }
    }
  }

  /** Every member of an object has its line, named by its key, one level below the
      object's header, in the object's order. */
  lemma {:induction false} MembersListed(ms: seq<Member>, depth: nat)
    ensures KeysAt(MembersLines(ms, depth), depth) == Keys(ms)
    decreases ms
  {
    if ms != [] {
      var last := ms[|ms| - 1];
      MembersListed(ms[..|ms| - 1], depth);
      SummaryKeys(last.value, last.key, depth);
      KeysAtAppend(MembersLines(ms[..|ms| - 1], depth), SummaryLines(last.value, last.key, depth), depth);
    }
  }

  /** The outline of an object lists all of its keys one level deeper. */
  lemma ObjectListsKeys(ms: seq<Member>, key: string, depth: nat)
    ensures KeysAt(SummaryLines(Object(ms), key, depth), depth + 1) == Keys(ms)
  {
    var ls := SummaryLines(Object(ms), key, depth);
    assert ls == [ls[0]] + MembersLines(ms, depth + 1);
    KeysAtAppend([ls[0]], MembersLines(ms, depth + 1), depth + 1);
    MembersListed(ms, depth + 1);
  }

  /** The text of a line, without its indentation. */
  function EntryText(e: Entry, order: set<string> -> seq<string>): string {
    match e
    case ObjectHeader(key, n, root) =>
      if root then "\U{1F4C1} " + key + " (Object with " + NatToString(n) + " keys)"
      else "\U{1F4C1} " + key + ": Object (" + NatToString(n) + " keys)"
    case ArrayHeader(key, n) => "\U{1F4CB} " + key + ": Array (" + NatToString(n) + " items)"
    case AllItemsAre(t) => "   └─ All items are: " + t
    case MixedTypes(ts) => "   └─ Mixed types: " + JoinWith(order(ts), ", ")
    case FirstItemStructure => "   └─ First item structure:"
    case StringEntry(key, n, preview) =>
      "\U{1F4DD} " + key + ": String (" + NatToString(n) + " chars) - \"" + preview + "\""
    case NumberEntry(key, number) => "\U{1F522} " + key + ": Number - " + number
    case BoolEntry(key, b) => "✅ " + key + ": Boolean - " + (if b then "true" else "false")
    case NullEntry(key) => "❌ " + key + ": null"
  }

  /** One line of text: two spaces per level, the entry, a line break. `order` is the
      order in which the set of type names of a mixed array comes out. */
  function RenderLine(l: Line, order: set<string> -> seq<string>): (r: string)
    ensures |r| > 2 * l.depth && r[|r| - 1] == '\n'
    ensures r[..2 * l.depth] == Repeat(' ', 2 * l.depth)
  {
    var r := Repeat(' ', 2 * l.depth) + EntryText(l.entry, order) + "\n";
    assert r[..2 * l.depth] == Repeat(' ', 2 * l.depth);
    r
  }

  function Render(ls: seq<Line>, order: set<string> -> seq<string>): string {
    if ls == [] then [] else RenderLine(ls[0], order) + Render(ls[1..], order)
  }

  /** `generate_json_summary(value, key, depth)`: the text opens with the indentation
      of level `depth`. */
  function GenerateJsonSummary(v: Value, key: string, depth: nat, order: set<string> -> seq<string>): (r: string)
    ensures |r| > 2 * depth && r[..2 * depth] == Repeat(' ', 2 * depth)
  {
    var ls := SummaryLines(v, key, depth);
    var first := RenderLine(ls[0], order);
    assert Render(ls, order) == first + Render(ls[1..], order);
    assert (first + Render(ls[1..], order))[..2 * depth] == first[..2 * depth];
    Render(ls, order)
  }

  /** The text of lines one after the other is their texts one after the other. */
  lemma {:induction false} RenderAppend(a: seq<Line>, b: seq<Line>, order: set<string> -> seq<string>)
    ensures Render(a + b, order) == Render(a, order) + Render(b, order)
  {
    if a != [] {
      calc {
        Render(a + b, order);
        { assert (a + b)[0] == a[0]; assert (a + b)[1..] == a[1..] + b; }
        RenderLine(a[0], order) + Render(a[1..] + b, order);
        { RenderAppend(a[1..], b, order); }
        RenderLine(a[0], order) + (Render(a[1..], order) + Render(b, order));
        { AppendAssociates(RenderLine(a[0], order), Render(a[1..], order), Render(b, order)); }
        RenderLine(a[0], order) + Render(a[1..], order) + Render(b, order);
        Render(a, order) + Render(b, order);
      }
    } else {
      assert a + b == b;
    }
  }

  /** The summaries of an object's members at level `depth`, concatenated in order: what
      the loop over `obj.iter()` appends. */
  function MembersSummary(ms: seq<Member>, depth: nat, order: set<string> -> seq<string>): string {
    if ms == [] then []
    else
      MembersSummary(ms[..|ms| - 1], depth, order)
      + GenerateJsonSummary(ms[|ms| - 1].value, ms[|ms| - 1].key, depth, order)
  }

  lemma {:induction false} MembersText(ms: seq<Member>, depth: nat, order: set<string> -> seq<string>)
    ensures Render(MembersLines(ms, depth), order) == MembersSummary(ms, depth, order)
  {
    if ms != [] {
      var last := ms[|ms| - 1];
      MembersText(ms[..|ms| - 1], depth, order);
      RenderAppend(MembersLines(ms[..|ms| - 1], depth), SummaryLines(last.value, last.key, depth), order);
    }
  }

  /** The summary of an object is its header line followed by the summary of each
      member, under the member's key, one level deeper. */
  lemma ObjectSummaryText(ms: seq<Member>, key: string, depth: nat, order: set<string> -> seq<string>)
    ensures GenerateJsonSummary(Object(ms), key, depth, order)
      == RenderLine(Line(depth, ObjectHeader(key, |ms|, depth == 0)), order) + MembersSummary(ms, depth + 1, order)
  {
    var header := Line(depth, ObjectHeader(key, |ms|, depth == 0));
    RenderAppend([header], MembersLines(ms, depth + 1), order);
    MembersText(ms, depth + 1, order);
  }

  /** One line's text. */
  lemma RenderOne(l: Line, order: set<string> -> seq<string>)
    ensures Render([l], order) == RenderLine(l, order)
  {
    assert [l][1..] == [];
    assert Render([l], order) == RenderLine(l, order) + Render([], order);
  }

  /** The text under an array header: the line on the item types and, when the first
      item is an object, the line announcing it followed by that item's summary. */
  lemma ItemsText(items: seq<Value>, depth: nat, order: set<string> -> seq<string>)
    requires items != []
    ensures Render(ItemsLines(items, depth), order)
      == RenderLine(Line(depth, ItemsKind(items)), order)
         + if items[0].Object?
           then RenderLine(Line(depth, FirstItemStructure), order) + GenerateJsonSummary(items[0], "item", depth + 2, order)
           else []
  {
    var kind := Line(depth, ItemsKind(items));
    if items[0].Object? {
      var first := Line(depth, FirstItemStructure);
      var outline := SummaryLines(items[0], "item", depth + 2);
      assert ItemsLines(items, depth) == [kind] + ([first] + outline);
      RenderAppend([kind], [first] + outline, order);
      RenderAppend([first], outline, order);
      RenderOne(kind, order);
      RenderOne(first, order);
    } else {
      assert ItemsLines(items, depth) == [kind];
      RenderOne(kind, order);
    }
  }

  /** The summary of an array is its header line and, unless it is empty, the line on its
      item types and, when the first item is an object, the line announcing it followed
      by that item's summary under the name "item" two levels deeper. */
  lemma ArraySummaryText(items: seq<Value>, key: string, depth: nat, order: set<string> -> seq<string>)
    ensures var header := RenderLine(Line(depth, ArrayHeader(key, |items|)), order);
      GenerateJsonSummary(Array(items), key, depth, order)
      == if items == [] then header
         else
           header + RenderLine(Line(depth, ItemsKind(items)), order)
           + if items[0].Object?
             then RenderLine(Line(depth, FirstItemStructure), order) + GenerateJsonSummary(items[0], "item", depth + 2, order)
             else []
  {
    var header := Line(depth, ArrayHeader(key, |items|));
    assert SummaryLines(Array(items), key, depth) == [header] + ItemsLines(items, depth);
    RenderAppend([header], ItemsLines(items, depth), order);
    RenderOne(header, order);
    if items == [] {
      assert Render(ItemsLines(items, depth), order) == [];
    } else {
      ItemsText(items, depth, order);
      AppendAssociates(RenderLine(header, order), RenderLine(Line(depth, ItemsKind(items)), order),
        if items[0].Object?
        then RenderLine(Line(depth, FirstItemStructure), order) + GenerateJsonSummary(items[0], "item", depth + 2, order)
        else []);
    }
  }

  /** The summary of a primitive value is its one line. */
  lemma PrimitiveSummaryText(v: Value, key: string, depth: nat, order: set<string> -> seq<string>)
    requires !v.Object? && !v.Array?
    ensures GenerateJsonSummary(v, key, depth, order) == RenderLine(SummaryLines(v, key, depth)[0], order)
    ensures |SummaryLines(v, key, depth)| == 1
  {
    var ls := SummaryLines(v, key, depth);
    assert ls[1..] == [];
    assert Render(ls, order) == RenderLine(ls[0], order) + Render([], order);
  }
}
