/** The trait-point allocation of `SimulationApp.randomize_sim`: 25 points,
    handed out one per round to five personality axes capped at 10 each. */
module Traits {
  import opened Common
  import Randomness

  /** The five axes, in the dictionary's insertion order. */
  const Axes: seq<string> := ["lazy/active", "sloppy/neat", "serious/playful", "grouchy/nice", "shy/outgoing"]

  /** The largest value an axis may reach. */
  const Cap := 10

  /** The number of rounds, each worth one point. */
  const Points := 25

  /** A trait table: the Python dictionary from axis name to points. */
  type Table = map<string, int>

  function AxisSet(): set<string>
  {
    set a | a in Axes
  }

  /** The table has exactly the five axes as keys. */
  predicate Keyed(t: Table)
  {
    t.Keys == AxisSet()
  }

  /** Every axis holds between 0 and Cap points. */
  predicate Bounded(t: Table)
    requires Keyed(t)
  {
    forall a :: a in Axes ==> 0 <= t[a] <= Cap
  }

  function SumOver(keys: seq<string>, t: Table): int
    requires forall k :: k in keys ==> k in t
  {
    if keys == [] then 0 else t[keys[0]] + SumOver(keys[1..], t)
  }

  /** The points handed out so far. */
  function Total(t: Table): int
    requires Keyed(t)
  {
    SumOver(Axes, t)
  }

  /** `[t for t in traits if traits[t] < 10]` over the given keys, in order. */
  function Below(keys: seq<string>, t: Table): (r: seq<string>)
    requires forall k :: k in keys ==> k in t
    ensures forall a :: a in r <==> a in keys && t[a] < Cap
  {
    if keys == [] then []
    else (if t[keys[0]] < Cap then [keys[0]] else []) + Below(keys[1..], t)
  }

  /** The axes still below the cap (`remaining_traits`, main.py:102). */
  function Unsaturated(t: Table): (r: seq<string>)
    requires Keyed(t)
    ensures forall a :: a in r <==> a in Axes && t[a] < Cap
  {
    Below(Axes, t)
  }

  /** The table of main.py:89: the five axes, all at zero. */
  function InitialTraits(): (t: Table)
    ensures Keyed(t) && Bounded(t)
    ensures forall a :: a in Axes ==> t[a] == 0
    ensures Total(t) == 0
  {
    var t := map a | a in Axes :: 0;
    SumOverZero(Axes, t);
    t
  }

  lemma AxesDistinct()
    ensures Distinct(Axes)
  {
  }

  lemma {:induction false} SumOverZero(keys: seq<string>, t: Table)
    requires forall k :: k in keys ==> k in t && t[k] == 0
    ensures SumOver(keys, t) == 0
  {
    if keys != [] {
      SumOverZero(keys[1..], t);
    }
  }

  /** Changing one entry changes the sum over distinct keys by the difference,
      if the entry is among the keys, and not at all otherwise. */
  lemma {:induction false} SumOverUpdate(keys: seq<string>, t: Table, a: string, v: int)
    requires Distinct(keys)
    requires forall k :: k in keys ==> k in t
    requires a in t
    ensures SumOver(keys, t[a := v]) == SumOver(keys, t) + (if a in keys then v - t[a] else 0)
  {
    if keys != [] {
      assert Distinct(keys[1..]) by {
        forall i, j | 0 <= i < j < |keys[1..]| ensures keys[1..][i] != keys[1..][j] {
          assert keys[1..][i] == keys[i + 1] && keys[1..][j] == keys[j + 1];
        }
      }
      assert keys[0] !in keys[1..];
      SumOverUpdate(keys[1..], t, a, v);
      assert a in keys <==> a == keys[0] || a in keys[1..];
    }
  }

  /** If no key is below the cap, every key holds at least Cap points. */
  lemma {:induction false} SaturatedSum(keys: seq<string>, t: Table)
    requires forall k :: k in keys ==> k in t
    requires Below(keys, t) == []
    ensures SumOver(keys, t) >= Cap * |keys|
  {
    if keys != [] {
      assert keys[0] !in Below(keys, t);
      SaturatedSum(keys[1..], t);
    }
  }

  /** While fewer than 5 * Cap points are handed out, some axis is below the
      cap: the `if remaining_traits:` guard of main.py:103 holds in every round. */
  lemma UnsaturatedWhileBelowCapacity(t: Table)
    requires Keyed(t)
    requires Total(t) < Cap * |Axes|
    ensures Unsaturated(t) != []
  {
    if Unsaturated(t) == [] {
      SaturatedSum(Axes, t);
    }
  }

  /** Adding one point to one axis raises the total by exactly one. */
  lemma PointRaisesTotal(t: Table, a: string)
    requires Keyed(t) && a in Axes
    ensures Total(t[a := t[a] + 1]) == Total(t) + 1
  {
    AxesDistinct();
    SumOverUpdate(Axes, t, a, t[a] + 1);
  }

  /** While fewer than 5 * Cap points are out, a round as `Round` promises it
      keeps the five keys and the bounds and hands out exactly one point. */
  lemma RoundAddsOnePoint(t: Table, next: Table, bumped: Option<string>)
    requires Keyed(t) && Bounded(t) && Total(t) < Cap * |Axes|
    requires bumped.None? <==> Unsaturated(t) == []
    requires bumped.Some? ==> bumped.value in Axes && t[bumped.value] < Cap
                              && next == t[bumped.value := t[bumped.value] + 1]
    ensures Keyed(next) && Bounded(next)
    ensures Total(next) == Total(t) + 1
  {
    UnsaturatedWhileBelowCapacity(t);
    PointRaisesTotal(t, bumped.value);
  }

  /** One pass of the loop body of main.py:95-105. `picked` is the axis drawn
      first; `bumped` is the axis that got the point, or None if every axis is
      at the cap and the round adds nothing. */
  method Round(t: Table) returns (next: Table, picked: string, bumped: Option<string>)
    requires Keyed(t)
    ensures picked in Axes
    ensures Keyed(next)
    ensures bumped.None? <==> Unsaturated(t) == []
    ensures bumped.None? ==> next == t
    ensures bumped.Some? ==> bumped.value in Axes && t[bumped.value] < Cap
                             && next == t[bumped.value := t[bumped.value] + 1]
    ensures t[picked] < Cap ==> bumped == Some(picked)
  {
    picked := Randomness.Choice(Axes);
    if t[picked] < Cap {
      next, bumped := t[picked := t[picked] + 1], Some(picked);
    } else {
      var remaining := Unsaturated(t);
      if remaining != [] {
        var newTrait := Randomness.Choice(remaining);
        next, bumped := t[newTrait := t[newTrait] + 1], Some(newTrait);
      } else {
        next, bumped := t, None;
      }
    }
  }

  /** The whole allocation loop of main.py:89-105: for every sequence of
      random picks the table ends with the five axes, each in [0, Cap], and
      exactly Points points handed out. */
  method AllocateTraits() returns (t: Table)
    ensures Keyed(t) && Bounded(t)
    ensures Total(t) == Points
  {
    t := InitialTraits();
    for round := 0 to Points
      invariant Keyed(t) && Bounded(t)
      invariant Total(t) == round
    {
      var next, picked, bumped := Round(t);
      RoundAddsOnePoint(t, next, bumped);
      t := next;
    }
  }
}
