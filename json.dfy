/**
 * The JSON value tree that `serde_json` parses into, the type names `get_value_type`
 * gives it, and the aggregate counts that `calculate_stats_recursive` accumulates.
 *
 * An object is the sequence of its members in the order the parser yields them; keys
 * are taken to be distinct, as they are in a parsed `serde_json::Map`. A number keeps
 * the text `serde_json` prints for it.
 */
module Json {
  datatype Value =
    | Null
    | Bool(b: bool)
    | Number(text: string)
    | String(s: string)
    | Array(items: seq<Value>)
    | Object(members: seq<Member>)

  datatype Member = Member(key: string, value: Value)

  /** The six names `get_value_type` can return. */
  const TypeNames: set<string> := {"Object", "Array", "String", "Number", "Boolean", "null"}

  /** `get_value_type`: the name of the value's kind. */
  function ValueType(v: Value): (name: string)
    ensures name in TypeNames
    ensures name == "Object" <==> v.Object?
    ensures name == "Array" <==> v.Array?
  {
    match v
    case Object(_) => "Object"
    case Array(_) => "Array"
    case String(_) => "String"
    case Number(_) => "Number"
    case Bool(_) => "Boolean"
    case Null => "null"
  }

  /** Two values of the same kind, whatever they hold. */
  predicate SameKind(a: Value, b: Value) {
    a.Null? == b.Null? && a.Bool? == b.Bool? && a.Number? == b.Number?
    && a.String? == b.String? && a.Array? == b.Array? && a.Object? == b.Object?
  }

  /** The type name tells the kinds apart: two values get the same name exactly when
      they are of the same kind. */
  lemma ValueTypeSeparates(a: Value, b: Value)
    ensures ValueType(a) == ValueType(b) <==> SameKind(a, b)
  {
    match a
    case Null =>
    case Bool(_) =>
    case Number(_) =>
    case String(_) =>
    case Array(_) =>
    case Object(_) =>
  }

  function Max(a: int, b: int): int {
    if a < b then b else a
  }

  /** The five figures of `JsonStats` for a subtree: objects, arrays, primitive values,
      the height (how far below the subtree's root its deepest value lies) and keys. */
  datatype Census = Census(objects: nat, arrays: nat, primitives: nat, height: nat, keys: nat)

  const Zero := Census(0, 0, 0, 0, 0)

  /** Two disjoint groups of values counted together; the height is the larger one. */
  function Plus(a: Census, b: Census): Census {
    Census(a.objects + b.objects, a.arrays + b.arrays, a.primitives + b.primitives,
           Max(a.height, b.height), a.keys + b.keys)
  }

  /** The census of a child as seen from its parent: one level deeper. */
  function Below(c: Census): Census {
    c.(height := c.height + 1)
  }

  /** The census of `v`. */
  function Tally(v: Value): Census
    decreases v
  {
    match v
    case Object(ms) => Plus(Census(1, 0, 0, 0, |ms|), MembersTally(ms))
    case Array(items) => Plus(Census(0, 1, 0, 0, 0), ItemsTally(items))
    case _ => Census(0, 0, 1, 0, 0)
  }

  /** The children of an object, each one level below it. */
  function MembersTally(ms: seq<Member>): Census
    decreases ms
  {
    if ms == [] then Zero
    else Plus(MembersTally(ms[..|ms| - 1]), Below(Tally(ms[|ms| - 1].value)))
  }

  /** The items of an array, each one level below it. */
  function ItemsTally(items: seq<Value>): Census
    decreases items
  {
    if items == [] then Zero
    else Plus(ItemsTally(items[..|items| - 1]), Below(Tally(items[|items| - 1])))
  }

  /** The number of values in the tree, the root included. */
  function Size(v: Value): nat
    decreases v
  {
    match v
    case Object(ms) => 1 + MembersSize(ms)
    case Array(items) => 1 + ItemsSize(items)
    case _ => 1
  }

  function MembersSize(ms: seq<Member>): nat
    decreases ms
  {
    if ms == [] then 0 else MembersSize(ms[..|ms| - 1]) + Size(ms[|ms| - 1].value)
  }

  function ItemsSize(items: seq<Value>): nat
    decreases items
  {
    if items == [] then 0 else ItemsSize(items[..|items| - 1]) + Size(items[|items| - 1])
  }

  /** The number of array elements anywhere in the tree. */
  function Elements(v: Value): nat
    decreases v
  {
    match v
    case Object(ms) => MembersElements(ms)
    case Array(items) => |items| + ItemsElements(items)
    case _ => 0
  }

  function MembersElements(ms: seq<Member>): nat
    decreases ms
  {
    if ms == [] then 0 else MembersElements(ms[..|ms| - 1]) + Elements(ms[|ms| - 1].value)
  }

  function ItemsElements(items: seq<Value>): nat
    decreases items
  {
    if items == [] then 0 else ItemsElements(items[..|items| - 1]) + Elements(items[|items| - 1])
  }

  /** Every value is counted exactly once, as an object, an array or a primitive; and
      every value but the root is either the value of a key or an element of an array.
      The height is less than the number of values. */
  lemma {:induction false} TallyCounts(v: Value)
    ensures var t := Tally(v);
      t.objects + t.arrays + t.primitives == Size(v)
      && t.keys + Elements(v) + 1 == Size(v)
      && t.height < Size(v)
    decreases v
  {
    match v
    case Object(ms) => MembersTallyCounts(ms);
    case Array(items) => ItemsTallyCounts(items);
    case _ =>
  }

  lemma {:induction false} MembersTallyCounts(ms: seq<Member>)
    ensures var t := MembersTally(ms);
      t.objects + t.arrays + t.primitives == MembersSize(ms)
      && t.keys + MembersElements(ms) + |ms| == MembersSize(ms)
      && t.height <= MembersSize(ms)
    decreases ms
  {
    if ms != [] {
      MembersTallyCounts(ms[..|ms| - 1]);
      TallyCounts(ms[|ms| - 1].value);
    }
  }

  lemma {:induction false} ItemsTallyCounts(items: seq<Value>)
    ensures var t := ItemsTally(items);
      t.objects + t.arrays + t.primitives == ItemsSize(items)
      && t.keys + ItemsElements(items) + |items| == ItemsSize(items)
      && t.height <= ItemsSize(items)
    decreases items
  {
    if items != [] {
      ItemsTallyCounts(items[..|items| - 1]);
      TallyCounts(items[|items| - 1]);
    }
  }

  /** A primitive value on its own counts as one primitive and nothing else. */
  lemma PrimitiveTally(v: Value)
    requires !v.Object? && !v.Array?
    ensures Tally(v) == Census(0, 0, 1, 0, 0)
  {
  }
}
