/** The recursive cost roll-up of bills of materials (`apps/api/src/inventory/bom.service.ts`). */
module Bom {
  import opened Money

  /** A component line: quantity per finished unit, in its own unit, and scrap fraction, both in millionths. */
  datatype Component = Component(item: nat, unit: nat, qty: int, scrap: int)

  datatype Recipe = Recipe(conversion: int, lines: seq<Component>)

  /** The active recipe of each produced item. */
  type Recipes = map<nat, Recipe>

  function EffectiveQty(line: Component): int {
    Round((line.qty * (1000000 + line.scrap)) as real / SCALE6)
  }

  function Extended(line: Component, unitCost: int): int {
    LineTotal(EffectiveQty(line), unitCost)
  }

  /** A line costs its quantity with scrap on top, at the unit cost; both products are rounded. */
  lemma {:induction false} ExtendedMeans(line: Component, unitCost: int) returns (qty: int)
    ensures Nearest(line.qty * (1000000 + line.scrap), 1000000, qty)
    ensures Nearest(qty * unitCost, 1000000, Extended(line, unitCost))
  {
    qty := EffectiveQty(line);
    RoundIsNearest(line.qty * (1000000 + line.scrap), 1000000);
    LineTotalIsNearest(qty, unitCost);
    hide Nearest, LineTotal;
  }

  /** The unit cost of an item, with the items on the path from the root: an item on it costs flat. */
  function CostOf(boms: Recipes, flat: nat -> int, item: nat, path: set<nat>): int
    decreases boms.Keys - path, 0, 0
  {
    if item !in path && item in boms then
      boms[item].conversion + LinesCost(boms, flat, boms[item].lines, path + {item})
    else flat(item)
  }

  function LinesCost(boms: Recipes, flat: nat -> int, lines: seq<Component>, path: set<nat>): int
    decreases boms.Keys - path, 1, |lines|
  {
    if lines == [] then 0
    else
      var last := lines[|lines| - 1];
      LinesCost(boms, flat, lines[..|lines| - 1], path) + Extended(last, CostOf(boms, flat, last.item, path))
  }

  method RollUpItem(boms: Recipes, flat: nat -> int, item: nat, path: set<nat>) returns (cost: int)
    ensures cost == CostOf(boms, flat, item, path)
    decreases boms.Keys - path, 0, 0
  {
    if item !in path && item in boms {
      var next := path + {item};
      var components := RollUpComponents(boms, flat, boms[item].lines, next);
      return boms[item].conversion + Sum(components);
    }
    return flat(item);
  }

  method RollUpComponents(boms: Recipes, flat: nat -> int, lines: seq<Component>, path: set<nat>)
    returns (out: seq<int>)
    ensures |out| == |lines| && Sum(out) == LinesCost(boms, flat, lines, path)
    ensures forall i | 0 <= i < |lines| :: out[i] == Extended(lines[i], CostOf(boms, flat, lines[i].item, path))
    decreases boms.Keys - path, 1, |lines|
  {
    out := [];
    for i := 0 to |lines|
      invariant |out| == i && Sum(out) == LinesCost(boms, flat, lines[..i], path)
      invariant forall j | 0 <= j < i :: out[j] == Extended(lines[j], CostOf(boms, flat, lines[j].item, path))
    {
      var unitCost := RollUpItem(boms, flat, lines[i].item, path);
      out := out + [Extended(lines[i], unitCost)];
      assert out[..i] + [out[i]] == out && out[..|out| - 1] == out[..i];
      assert lines[..i + 1][..i] == lines[..i];
    }
    assert lines[..|lines|] == lines;
  }

  // --- the graph ------------------------------------------------------------------------------------

  ghost predicate Uses(boms: Recipes, item: nat, part: nat) {
    item in boms && exists line :: line in boms[item].lines && line.item == part
  }

  ghost predicate Walk(boms: Recipes, path: seq<nat>) {
    forall i | 0 < i < |path| :: Uses(boms, path[i - 1], path[i])
  }

  ghost predicate Reaches(boms: Recipes, item: nat, part: nat) {
    exists path :: |path| > 0 && path[0] == item && path[|path| - 1] == part && Walk(boms, path)
  }

  ghost predicate Acyclic(boms: Recipes) {
    forall item, part | Uses(boms, item, part) :: !Reaches(boms, part, item)
  }

  /** None of the items on the path can be met again below `item`. */
  ghost predicate Fresh(boms: Recipes, item: nat, path: set<nat>) {
    forall v | v in path :: !Reaches(boms, item, v)
  }

  lemma {:induction false} ReachesSelf(boms: Recipes, item: nat)
    ensures Reaches(boms, item, item)
  {
    var path := [item];
    assert path[0] == item && path[|path| - 1] == item && Walk(boms, path);
  }

  lemma {:induction false} ReachesThrough(boms: Recipes, item: nat, part: nat, v: nat)
    requires Uses(boms, item, part) && Reaches(boms, part, v)
    ensures Reaches(boms, item, v)
  {
    var path :| |path| > 0 && path[0] == part && path[|path| - 1] == v && Walk(boms, path);
    var longer := [item] + path;
    forall i | 0 < i < |longer| ensures Uses(boms, longer[i - 1], longer[i]) {
      assert i > 1 ==> Uses(boms, path[i - 2], path[i - 1]);
    }
    assert longer[0] == item && longer[|longer| - 1] == v;
  }

  lemma {:induction false} FreshBelow(boms: Recipes, item: nat, path: set<nat>, line: Component)
    requires Acyclic(boms) && Fresh(boms, item, path) && item in boms && line in boms[item].lines
    ensures Fresh(boms, line.item, path + {item})
  {
    assert Uses(boms, item, line.item);
    forall v | v in path + {item} ensures !Reaches(boms, line.item, v) {
      if v in path && Reaches(boms, line.item, v) {
        ReachesThrough(boms, item, line.item, v);
      }
    }
  }

  // --- the guard changes nothing on an acyclic graph ---------------------------------------------------

  /** Any two paths of strict ancestors give the same cost. */
  lemma {:induction false} PathIsIrrelevant(boms: Recipes, flat: nat -> int, item: nat, p: set<nat>, q: set<nat>)
    requires Acyclic(boms) && Fresh(boms, item, p) && Fresh(boms, item, q)
    ensures CostOf(boms, flat, item, p) == CostOf(boms, flat, item, q)
    decreases boms.Keys - p, 0, 0
  {
    ReachesSelf(boms, item);
    if item in boms {
      var lines := boms[item].lines;
      forall line | line in lines ensures Fresh(boms, line.item, p + {item}) && Fresh(boms, line.item, q + {item}) {
        FreshBelow(boms, item, p, line);
        FreshBelow(boms, item, q, line);
      }
      LinesIrrelevant(boms, flat, lines, p + {item}, q + {item});
    }
  }

  lemma {:induction false} LinesIrrelevant(boms: Recipes, flat: nat -> int, lines: seq<Component>, p: set<nat>,
      q: set<nat>)
    requires Acyclic(boms)
    requires forall line | line in lines :: Fresh(boms, line.item, p) && Fresh(boms, line.item, q)
    ensures LinesCost(boms, flat, lines, p) == LinesCost(boms, flat, lines, q)
    decreases boms.Keys - p, 1, |lines|
  {
    if lines != [] {
      var n := |lines| - 1;
      hide Fresh, Acyclic, Extended;
      assert forall line | line in lines[..n] :: line in lines;
      LinesIrrelevant(boms, flat, lines[..n], p, q);
      assert lines[n] in lines;
      PathIsIrrelevant(boms, flat, lines[n].item, p, q);
    }
  }

  function LinesAt(lines: seq<Component>, cost: nat -> int): int {
    if lines == [] then 0
    else
      var last := lines[|lines| - 1];
      LinesAt(lines[..|lines| - 1], cost) + Extended(last, cost(last.item))
  }

  /** The unguarded recursive cost equations: conversion plus components for a produced item, else flat. */
  ghost predicate Solves(boms: Recipes, flat: nat -> int, cost: nat -> int) {
    forall item :: cost(item) ==
      if item in boms then boms[item].conversion + LinesAt(boms[item].lines, cost) else flat(item)
  }

  lemma {:induction false} LinesMatch(boms: Recipes, flat: nat -> int, lines: seq<Component>, path: set<nat>,
      cost: nat -> int)
    requires forall line | line in lines :: CostOf(boms, flat, line.item, path) == cost(line.item)
    ensures LinesCost(boms, flat, lines, path) == LinesAt(lines, cost)
  {
    if lines != [] {
      var n := |lines| - 1;
      assert forall line | line in lines[..n] :: line in lines;
      assert lines[n] in lines;
      LinesMatch(boms, flat, lines[..n], path, cost);
    }
  }

  /** On an acyclic graph the guarded roll-up solves the unguarded equations. */
  lemma {:induction false} RollUpSolves(boms: Recipes, flat: nat -> int)
    requires Acyclic(boms)
    ensures Solves(boms, flat, (item: nat) => CostOf(boms, flat, item, {}))
  {
    var cost := (item: nat) => CostOf(boms, flat, item, {});
    forall item: nat ensures cost(item) ==
      if item in boms then boms[item].conversion + LinesAt(boms[item].lines, cost) else flat(item)
    {
      if item in boms {
        forall line | line in boms[item].lines ensures CostOf(boms, flat, line.item, {item}) == cost(line.item) {
          FreshBelow(boms, item, {}, line);
          PathIsIrrelevant(boms, flat, line.item, {} + {item}, {});
          assert {} + {item} == {item};
        }
        LinesMatch(boms, flat, boms[item].lines, {item}, cost);
        assert {} + {item} == {item};
      }
    }
  }

  /** And it is their only solution: whatever path of strict ancestors it carries, the guard is inert. */
  lemma {:induction false} GuardIsInert(boms: Recipes, flat: nat -> int, cost: nat -> int, item: nat, path: set<nat>)
    requires Acyclic(boms) && Solves(boms, flat, cost) && Fresh(boms, item, path)
    ensures CostOf(boms, flat, item, path) == cost(item)
    decreases boms.Keys - path
  {
    ReachesSelf(boms, item);
    if item in boms {
      forall line | line in boms[item].lines ensures CostOf(boms, flat, line.item, path + {item}) == cost(line.item) {
        FreshBelow(boms, item, path, line);
        GuardIsInert(boms, flat, cost, line.item, path + {item});
      }
      LinesMatch(boms, flat, boms[item].lines, path + {item}, cost);
    }
  }

  /** On a cycle the item met again counts at its flat cost: an item made of itself is rolled up once. */
  lemma {:induction false} CycleCostsFlat(boms: Recipes, flat: nat -> int, item: nat, path: set<nat>)
    ensures item in path || item !in boms ==> CostOf(boms, flat, item, path) == flat(item)
    ensures item in boms && |boms[item].lines| == 1 && boms[item].lines[0].item == item ==>
              CostOf(boms, flat, item, {}) == boms[item].conversion + Extended(boms[item].lines[0], flat(item))
  {
    if item in boms && |boms[item].lines| == 1 && boms[item].lines[0].item == item {
      var lines := boms[item].lines;
      assert lines[..0] == [];
      assert LinesCost(boms, flat, lines, {item}) == Extended(lines[0], CostOf(boms, flat, item, {item}));
      assert {} + {item} == {item};
      hide Extended;
    }
  }

  // --- monotone in the flat costs, on every graph -------------------------------------------------------

  ghost predicate NonNegativeLines(boms: Recipes) {
    forall item, line | item in boms && line in boms[item].lines :: line.qty >= 0 && line.scrap >= -1000000
  }

  lemma {:induction false} ExtendedMonotone(line: Component, a: int, b: int)
    requires line.qty >= 0 && line.scrap >= -1000000 && a <= b
    ensures Extended(line, a) <= Extended(line, b)
  {
    var required := line.qty * (1000000 + line.scrap);
    TimesMonotone(line.qty, 0, 1000000 + line.scrap);
    RoundIsMonotoneAndOdd(0.0, required as real / SCALE6);
    var qty := EffectiveQty(line);
    assert qty >= 0;
    TimesMonotone(qty, a, b);
    hide EffectiveQty, Round;
    RoundIsMonotoneAndOdd((qty * a) as real / SCALE6, (qty * b) as real / SCALE6);
  }

  lemma {:induction false} TimesMonotone(n: int, a: int, b: int)
    requires n >= 0 && a <= b
    ensures n * a <= n * b
  {
  }

  /** Raising flat costs never lowers a rolled-up cost, cycles or not. */
  lemma {:induction false} RollUpMonotone(boms: Recipes, flat: nat -> int, raised: nat -> int, item: nat,
      path: set<nat>)
    requires NonNegativeLines(boms) && forall i :: flat(i) <= raised(i)
    ensures CostOf(boms, flat, item, path) <= CostOf(boms, raised, item, path)
    decreases boms.Keys - path, 0, 0
  {
    if item !in path && item in boms {
      LinesMonotone(boms, flat, raised, boms[item].lines, path + {item});
    }
  }

  lemma {:induction false} LinesMonotone(boms: Recipes, flat: nat -> int, raised: nat -> int, lines: seq<Component>,
      path: set<nat>)
    requires NonNegativeLines(boms) && forall i :: flat(i) <= raised(i)
    requires forall line | line in lines :: line.qty >= 0 && line.scrap >= -1000000
    ensures LinesCost(boms, flat, lines, path) <= LinesCost(boms, raised, lines, path)
    decreases boms.Keys - path, 1, |lines|
  {
    if lines != [] {
      hide Extended;
      var n := |lines| - 1;
      assert forall line | line in lines[..n] :: line in lines;
      LinesMonotone(boms, flat, raised, lines[..n], path);
      assert lines[n] in lines;
      RollUpMonotone(boms, flat, raised, lines[n].item, path);
      ExtendedMonotone(lines[n], CostOf(boms, flat, lines[n].item, path), CostOf(boms, raised, lines[n].item, path));
    }
  }
}
