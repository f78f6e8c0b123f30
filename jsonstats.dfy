/**
 * `calculate_json_stats`: one `JsonStats` record, updated in place by a recursive walk
 * over the value tree. Each call raises `max_depth` to the depth it is called at, counts
 * its value, and walks the children one level deeper.
 */
module JsonStatistics {
  import opened Json

  class JsonStats {
    var objects: nat
    var arrays: nat
    var primitives: nat
    var maxDepth: nat
    var totalKeys: nat

    /** The record zeroed, as `calculate_json_stats` creates it. */
    constructor ()
      ensures Figures() == Zero
    {
      objects, arrays, primitives, maxDepth, totalKeys := 0, 0, 0, 0, 0;
    }

    /** The five fields, with `max_depth` in the height slot. */
    function Figures(): Census
      reads this
    {
      Census(objects, arrays, primitives, maxDepth, totalKeys)
    }
  }

  /** The record `s` after also counting a subtree with census `t` whose root lies at
      `depth`. */
  function Absorb(s: Census, t: Census, depth: nat): (r: Census)
    ensures r.height >= s.height && r.height >= depth + t.height
    ensures r.height == s.height || r.height == depth + t.height
  {
    Census(s.objects + t.objects, s.arrays + t.arrays, s.primitives + t.primitives,
           Max(s.height, depth + t.height), s.keys + t.keys)
  }

  /** Counting two groups one after the other is counting them together. */
  lemma AbsorbPlus(s: Census, a: Census, b: Census, depth: nat)
    ensures Absorb(Absorb(s, a, depth), b, depth) == Absorb(s, Plus(a, b), depth)
  {
  }

  /** Counting a child at the next depth is counting its census one level down. */
  lemma AbsorbChild(s: Census, a: Census, child: Census, depth: nat)
    ensures Absorb(Absorb(s, a, depth), child, depth + 1) == Absorb(s, Plus(a, Below(child)), depth)
  {
  }

  /** Counting an object itself and then its members is counting the object's tree. */
  lemma ObjectAbsorb(s: Census, ms: seq<Member>, depth: nat)
    ensures Absorb(Absorb(s, Census(1, 0, 0, 0, |ms|), depth), MembersTally(ms), depth)
      == Absorb(s, Tally(Object(ms)), depth)
  {
    assert Tally(Object(ms)) == Plus(Census(1, 0, 0, 0, |ms|), MembersTally(ms));
    AbsorbPlus(s, Census(1, 0, 0, 0, |ms|), MembersTally(ms), depth);
  }

  /** Counting an array itself and then its items is counting the array's tree. */
  lemma ArrayAbsorb(s: Census, items: seq<Value>, depth: nat)
    ensures Absorb(Absorb(s, Census(0, 1, 0, 0, 0), depth), ItemsTally(items), depth)
      == Absorb(s, Tally(Array(items)), depth)
  {
    assert Tally(Array(items)) == Plus(Census(0, 1, 0, 0, 0), ItemsTally(items));
    AbsorbPlus(s, Census(0, 1, 0, 0, 0), ItemsTally(items), depth);
  }

  /** One more member counted. */
  lemma MembersTallyStep(ms: seq<Member>, k: nat)
    requires k < |ms|
    ensures MembersTally(ms[..k + 1]) == Plus(MembersTally(ms[..k]), Below(Tally(ms[k].value)))
  {
    assert ms[..k + 1][..k] == ms[..k];
  }

  /** One more item counted. */
  lemma ItemsTallyStep(items: seq<Value>, k: nat)
    requires k < |items|
    ensures ItemsTally(items[..k + 1]) == Plus(ItemsTally(items[..k]), Below(Tally(items[k])))
  {
    assert items[..k + 1][..k] == items[..k];
  }

  /** `calculate_stats_recursive`: adds the census of `value`, found at `depth`, to
      `stats`. */
  method CalculateStatsRecursive(value: Value, stats: JsonStats, depth: nat)
    modifies stats
    ensures stats.Figures() == Absorb(old(stats.Figures()), Tally(value), depth)
    decreases value
  {
    ghost var start := stats.Figures();
    stats.maxDepth := Max(stats.maxDepth, depth);
    match value
    case Object(ms) =>
      stats.objects := stats.objects + 1;
      stats.totalKeys := stats.totalKeys + |ms|;
      assert stats.Figures() == Absorb(start, Census(1, 0, 0, 0, |ms|), depth);
      CountMembers(ms, stats, depth);
      ObjectAbsorb(start, ms, depth);
    case Array(items) =>
      stats.arrays := stats.arrays + 1;
      assert stats.Figures() == Absorb(start, Census(0, 1, 0, 0, 0), depth);
      CountItems(items, stats, depth);
      ArrayAbsorb(start, items, depth);
    case _ =>
      stats.primitives := stats.primitives + 1;
      PrimitiveTally(value);
  }

  /** The loop over `obj.values()`: each member's value counted one level below an
      object at `depth`, once `max_depth` has reached `depth`. */
  method CountMembers(ms: seq<Member>, stats: JsonStats, depth: nat)
    requires depth <= stats.maxDepth
    modifies stats
    ensures stats.Figures() == Absorb(old(stats.Figures()), MembersTally(ms), depth)
    decreases ms
  {
    ghost var own := stats.Figures();
    for k := 0 to |ms|
      invariant stats.Figures() == Absorb(own, MembersTally(ms[..k]), depth)
    {
      ghost var before := stats.Figures();
      MembersTallyStep(ms, k);
      CalculateStatsRecursive(ms[k].value, stats, depth + 1);
      assert stats.Figures() == Absorb(before, Tally(ms[k].value), depth + 1);
      AbsorbChild(own, MembersTally(ms[..k]), Tally(ms[k].value), depth);
    }
    assert ms[..|ms|] == ms;
  }

  /** The loop over `arr.iter()`: each item counted one level below an array at
      `depth`, once `max_depth` has reached `depth`. */
  method CountItems(items: seq<Value>, stats: JsonStats, depth: nat)
    requires depth <= stats.maxDepth
    modifies stats
    ensures stats.Figures() == Absorb(old(stats.Figures()), ItemsTally(items), depth)
    decreases items
  {
    ghost var own := stats.Figures();
    for k := 0 to |items|
      invariant stats.Figures() == Absorb(own, ItemsTally(items[..k]), depth)
    {
      ghost var before := stats.Figures();
      ItemsTallyStep(items, k);
      CalculateStatsRecursive(items[k], stats, depth + 1);
      assert stats.Figures() == Absorb(before, Tally(items[k]), depth + 1);
      AbsorbChild(own, ItemsTally(items[..k]), Tally(items[k]), depth);
    }
    assert items[..|items|] == items;
  }

  /** `calculate_json_stats`: the census of the whole tree, with the root at depth 0. */
  method CalculateJsonStats(value: Value) returns (stats: JsonStats)
    ensures fresh(stats)
    ensures stats.Figures() == Tally(value)
  {
    stats := new JsonStats();
    CalculateStatsRecursive(value, stats, 0);
  }
}
