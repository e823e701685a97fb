/** The per-category and per-type views the components take of the item and
    strategy lists: `items.filter((i) => i.category === c)` (written out in
    App, SwotMatrix, AiInsights, SwotStats and ExportButton) and
    `strategies.filter((s) => s.type === t)` (SwotStrategies, ExportButton),
    with the four category counts. */
module Categories {
  import opened Supabase

  /** `Array.prototype.filter`: the elements that satisfy `p`, in their order. */
  function Filter<T(!new)>(s: seq<T>, p: T -> bool): (r: seq<T>)
    ensures |r| <= |s|
    ensures forall x :: x in r <==> x in s && p(x)
    ensures forall k :: 0 <= k < |r| ==> p(r[k])
  {
    if s == [] then [] else (if p(s[0]) then [s[0]] else []) + Filter(s[1..], p)
  }

  /** Filtering commutes with concatenation, so it keeps the relative order
      of the elements it keeps. */
  lemma {:induction false} FilterAppend<T(!new)>(a: seq<T>, b: seq<T>, p: T -> bool)
    ensures Filter(a + b, p) == Filter(a, p) + Filter(b, p)
  {
    if a == [] {
      assert a + b == b;
    } else {
      assert (a + b)[1..] == a[1..] + b;
      FilterAppend(a[1..], b, p);
    }
  }

  /** Filtering a list whose elements all pass gives the list back. */
  lemma {:induction false} FilterAll<T(!new)>(s: seq<T>, p: T -> bool)
    requires forall k :: 0 <= k < |s| ==> p(s[k])
    ensures Filter(s, p) == s
  {
    if s != [] {
      FilterAll(s[1..], p);
    }
  }

  // ---------------------------------------------------------------------
  // Items by category

  /** `getItemsByCategory(c)`: the items of category `c`, in list order. */
  function ItemsOf(items: seq<ItemRow>, c: Category): (r: seq<ItemRow>)
    ensures |r| <= |items|
    ensures forall x :: x in r <==> x in items && x.category == c
  {
    Filter(items, (x: ItemRow) => x.category == c)
  }

  lemma ItemsOfAppend(a: seq<ItemRow>, b: seq<ItemRow>, c: Category)
    ensures ItemsOf(a + b, c) == ItemsOf(a, c) + ItemsOf(b, c)
  {
    FilterAppend(a, b, (x: ItemRow) => x.category == c);
  }

  /** `items.filter((i) => i.category === c).length`. */
  function CountOf(items: seq<ItemRow>, c: Category): nat
  {
    |ItemsOf(items, c)|
  }

  /** The four category counts: `counts` in AiInsights, `stats` in SwotStats. */
  datatype Counts = Counts(strength: nat, weakness: nat, opportunity: nat, threat: nat)

  function Tally(items: seq<ItemRow>): Counts
  {
    Counts(CountOf(items, Strength), CountOf(items, Weakness),
           CountOf(items, Opportunity), CountOf(items, Threat))
  }

  /** `Object.values(stats).reduce((a, b) => a + b, 0)`. */
  function Total(k: Counts): nat
  {
    k.strength + k.weakness + k.opportunity + k.threat
  }

  /** Counting a non-empty list: its head, then its tail. */
  lemma CountOfCons(items: seq<ItemRow>, c: Category)
    requires items != []
    ensures CountOf(items, c) == (if items[0].category == c then 1 else 0) + CountOf(items[1..], c)
  {
  }

  /** The four counts add up to the number of items: every item is counted
      under exactly one category. */
  lemma {:induction false} TallyTotal(items: seq<ItemRow>)
    ensures Total(Tally(items)) == |items|
  {
    if items != [] {
      TallyTotal(items[1..]);
      CountOfCons(items, Strength);
      CountOfCons(items, Weakness);
      CountOfCons(items, Opportunity);
      CountOfCons(items, Threat);
    }
  }

  /** An item occurs in its category's list as often as in the whole list,
      and never in another category's list. */
  lemma {:induction false} ItemsOfMultiplicity(items: seq<ItemRow>, c: Category, y: ItemRow)
    ensures multiset(ItemsOf(items, c))[y] == if y.category == c then multiset(items)[y] else 0
  {
    if items != [] {
      ItemsOfMultiplicity(items[1..], c, y);
      assert items == [items[0]] + items[1..];
      ItemsOfAppend([items[0]], items[1..], c);
    }
  }

  /** The four per-category lists split the item list: together they hold
      every item exactly as often as the list does. */
  lemma MultiplicitySplits(items: seq<ItemRow>, y: ItemRow)
    ensures multiset(items)[y] == multiset(ItemsOf(items, Strength))[y] + multiset(ItemsOf(items, Weakness))[y]
                                + multiset(ItemsOf(items, Opportunity))[y] + multiset(ItemsOf(items, Threat))[y]
  {
    ItemsOfMultiplicity(items, Strength, y);
    ItemsOfMultiplicity(items, Weakness, y);
    ItemsOfMultiplicity(items, Opportunity, y);
    ItemsOfMultiplicity(items, Threat, y);
  }

  lemma CategoriesPartition(items: seq<ItemRow>)
    ensures multiset(items) == multiset(ItemsOf(items, Strength)) + multiset(ItemsOf(items, Weakness))
                             + multiset(ItemsOf(items, Opportunity)) + multiset(ItemsOf(items, Threat))
  {
    forall y: ItemRow
      ensures multiset(items)[y] == multiset(ItemsOf(items, Strength))[y] + multiset(ItemsOf(items, Weakness))[y]
                                  + multiset(ItemsOf(items, Opportunity))[y] + multiset(ItemsOf(items, Threat))[y]
    {
      MultiplicitySplits(items, y);
    }
  }

  // ---------------------------------------------------------------------
  // Strategies by type

  /** `getStrategiesByType(t)`: the strategies of type `t`, in list order. */
  function StrategiesOf(strategies: seq<StrategyRow>, t: StrategyType): (r: seq<StrategyRow>)
    ensures |r| <= |strategies|
    ensures forall x :: x in r <==> x in strategies && x.kind == t
  {
    Filter(strategies, (x: StrategyRow) => x.kind == t)
  }

  lemma StrategiesOfAppend(a: seq<StrategyRow>, b: seq<StrategyRow>, t: StrategyType)
    ensures StrategiesOf(a + b, t) == StrategiesOf(a, t) + StrategiesOf(b, t)
  {
    FilterAppend(a, b, (x: StrategyRow) => x.kind == t);
  }

  lemma StrategiesOfCons(strategies: seq<StrategyRow>, t: StrategyType)
    requires strategies != []
    ensures |StrategiesOf(strategies, t)|
         == (if strategies[0].kind == t then 1 else 0) + |StrategiesOf(strategies[1..], t)|
  {
  }

  /** Every strategy is of exactly one of the four types. */
  lemma {:induction false} StrategyTypesPartition(strategies: seq<StrategyRow>)
    ensures |StrategiesOf(strategies, SO)| + |StrategiesOf(strategies, WO)|
          + |StrategiesOf(strategies, ST)| + |StrategiesOf(strategies, WT)| == |strategies|
  {
    if strategies != [] {
      StrategyTypesPartition(strategies[1..]);
      StrategiesOfCons(strategies, SO);
      StrategiesOfCons(strategies, WO);
      StrategiesOfCons(strategies, ST);
      StrategiesOfCons(strategies, WT);
    }
  }
}
