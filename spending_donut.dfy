/** The spending donut's grouping (src/components/charts/SpendingDonut.tsx):
    with a selected parent category it lists that parent's children; without
    one it folds every child category's total into its parent's entry. */
module SpendingDonut {
  import opened Common

  /** A row of the spending-by-category report (totals in cents). */
  datatype SpendingItem = SpendingItem(
    category_id: string,
    category_name: string,
    category_color: Option<string>,
    category_icon: Option<string>,
    total: int,
    parent_id: Option<string>)

  /** `!item.parent_id`: no parent, or an empty one. */
  predicate IsTopLevel(item: SpendingItem)
  {
    item.parent_id.None? || item.parent_id.value == ""
  }

  /** `data.find(d => d.category_id === id)`. */
  function Find(data: seq<SpendingItem>, id: string): (r: Option<SpendingItem>)
    ensures r.Some? ==> r.value in data && r.value.category_id == id
    ensures r.None? <==> forall d :: d in data ==> d.category_id != id
  {
    if data == [] then None
    else if data[0].category_id == id then Some(data[0])
    else Find(data[1..], id)
  }

  /** `hasChildren`. */
  predicate HasChildren(data: seq<SpendingItem>, id: string)
  {
    exists item :: item in data && item.parent_id == Some(id)
  }

  // ---------------------------------------------------------------------
  // Ordering by magnitude

  /** Totals never grow in magnitude along the sequence. */
  predicate LargestFirst(s: seq<SpendingItem>)
  {
    forall i, j :: 0 <= i < j < |s| ==> Abs(s[j].total) <= Abs(s[i].total)
  }

  /** Puts `x` after every item at least as large. */
  function InsertByMagnitude(x: SpendingItem, s: seq<SpendingItem>): seq<SpendingItem>
  {
    if s == [] then [x]
    else if Abs(x.total) > Abs(s[0].total) then [x] + s
    else [s[0]] + InsertByMagnitude(x, s[1..])
  }

  /** `.sort((a, b) => Math.abs(b.total) - Math.abs(a.total))`, a stable sort. */
  function ByMagnitude(s: seq<SpendingItem>): seq<SpendingItem>
  {
    if s == [] then [] else InsertByMagnitude(s[|s| - 1], ByMagnitude(s[..|s| - 1]))
  }

  lemma HeadIsLargest(s: seq<SpendingItem>, k: nat)
    requires LargestFirst(s) && 0 < k < |s|
    ensures Abs(s[k].total) <= Abs(s[0].total)
  {
  }

  lemma {:induction false} InsertByMagnitudeSorts(x: SpendingItem, s: seq<SpendingItem>)
    requires LargestFirst(s)
    ensures LargestFirst(InsertByMagnitude(x, s))
    ensures multiset(InsertByMagnitude(x, s)) == multiset(s) + multiset{x}
  {
    if s == [] {
    } else if Abs(x.total) > Abs(s[0].total) {
      InsertAhead(x, s);
    } else {
      InsertByMagnitudeSorts(x, s[1..]);
      InsertBehindHead(x, s, InsertByMagnitude(x, s[1..]));
    }
  }

  lemma InsertAhead(x: SpendingItem, s: seq<SpendingItem>)
    requires LargestFirst(s) && s != [] && Abs(x.total) > Abs(s[0].total)
    ensures LargestFirst([x] + s)
  {
    var r := [x] + s;
    forall i, j | 0 <= i < j < |r|
      ensures Abs(r[j].total) <= Abs(r[i].total)
    {
      if i == 0 && j > 1 {
        HeadIsLargest(s, j - 1);
      }
    }
  }

  lemma InsertBehindHead(x: SpendingItem, s: seq<SpendingItem>, rest: seq<SpendingItem>)
    requires s != [] && LargestFirst(s) && LargestFirst(rest)
    requires Abs(x.total) <= Abs(s[0].total)
    requires multiset(rest) == multiset(s[1..]) + multiset{x}
    ensures LargestFirst([s[0]] + rest)
    ensures multiset([s[0]] + rest) == multiset(s) + multiset{x}
  {
    assert s == [s[0]] + s[1..];
    var r := [s[0]] + rest;
    forall i, j | 0 <= i < j < |r|
      ensures Abs(r[j].total) <= Abs(r[i].total)
    {
      if i == 0 {
        var t := rest[j - 1];
        assert t in multiset(rest);
        if t != x {
          assert t in multiset(s[1..]);
          var k :| 0 <= k < |s[1..]| && s[1..][k] == t;
          HeadIsLargest(s, k + 1);
        }
      }
    }
  }

  /** The ordering sorts by magnitude, largest first, and keeps every item. */
  lemma {:induction false} ByMagnitudeSorts(s: seq<SpendingItem>)
    ensures LargestFirst(ByMagnitude(s))
    ensures multiset(ByMagnitude(s)) == multiset(s)
  {
    if s != [] {
      var init, last := s[..|s| - 1], s[|s| - 1];
      ByMagnitudeSorts(init);
      InsertByMagnitudeSorts(last, ByMagnitude(init));
      assert ByMagnitude(s) == InsertByMagnitude(last, ByMagnitude(init));
      assert multiset(s) == multiset(init) + multiset{last} by {
        assert s == init + [last];
      }
    }
  }

  // ---------------------------------------------------------------------
  // The selected-parent branch

  /** The items whose parent is `parent`, in input order. */
  function ChildrenOf(data: seq<SpendingItem>, parent: string): (r: seq<SpendingItem>)
    ensures forall item :: item in r <==> item in data && item.parent_id == Some(parent)
  {
    if data == [] then []
    else
      var last := data[|data| - 1];
      ChildrenOf(data[..|data| - 1], parent) + (if last.parent_id == Some(parent) then [last] else [])
  }

  /** A category has children exactly when the drill-down into it lists
      some. */
  lemma HasChildrenIffDrillDown(data: seq<SpendingItem>, id: string)
    ensures HasChildren(data, id) <==> ChildrenOf(data, id) != []
  {
    if HasChildren(data, id) {
      var item :| item in data && item.parent_id == Some(id);
      assert item in ChildrenOf(data, id);
    }
  }

  // ---------------------------------------------------------------------
  // The grouping branch

  /** The loop's state: `parentMap` (keys in insertion order) and
      `childTotals` (keys in insertion order). */
  datatype Grouping = Grouping(
    order: seq<string>,
    parents: map<string, SpendingItem>,
    childOrder: seq<string>,
    childTotals: map<string, int>)

  predicate Distinct(s: seq<string>)
  {
    forall a, b :: 0 <= a < b < |s| ==> s[a] != s[b]
  }

  /** The insertion orders list each key once, and each entry is stored
      under its own category id. */
  predicate Wf(g: Grouping)
  {
    && Distinct(g.order) && (forall k :: 0 <= k < |g.order| ==> g.order[k] in g.parents)
    && (forall id :: id in g.parents ==> id in g.order && g.parents[id].category_id == id)
    && Distinct(g.childOrder) && (forall k :: 0 <= k < |g.childOrder| ==> g.childOrder[k] in g.childTotals)
    && (forall id :: id in g.childTotals ==> id in g.childOrder)
  }

  /** One pass of the first loop over `item`. */
  function Step(data: seq<SpendingItem>, g: Grouping, item: SpendingItem): Grouping
  {
    if IsTopLevel(item) then
      if item.category_id in g.parents then g
      else g.(order := g.order + [item.category_id], parents := g.parents[item.category_id := item])
    else
      var p := item.parent_id.value;
      var sofar := if p in g.childTotals then g.childTotals[p] else 0;
      var g1 := g.(childOrder := if p in g.childTotals then g.childOrder else g.childOrder + [p],
                   childTotals := g.childTotals[p := sofar + item.total]);
      var entry := Find(data, p);
      if p !in g1.parents && entry.Some? then
        g1.(order := g1.order + [p], parents := g1.parents[p := entry.value.(total := 0)])
      else g1
  }

  /** The state after the first `n` items. */
  function Gather(data: seq<SpendingItem>, n: nat): Grouping
    requires n <= |data|
  {
    if n == 0 then Grouping([], map[], [], map[])
    else Step(data, Gather(data, n - 1), data[n - 1])
  }

  /** The loop's state stays well formed. */
  lemma {:induction false} GatherWf(data: seq<SpendingItem>, n: nat)
    requires n <= |data|
    ensures Wf(Gather(data, n))
  {
    if n > 0 {
      GatherWf(data, n - 1);
      StepKeepsWf(data, Gather(data, n - 1), data[n - 1]);
    }
  }

  lemma AppendFresh(s: seq<string>, x: string)
    requires Distinct(s) && x !in s
    ensures Distinct(s + [x])
  {
  }

  lemma StepKeepsWf(data: seq<SpendingItem>, g: Grouping, item: SpendingItem)
    requires Wf(g)
    ensures Wf(Step(data, g, item))
  {
    if IsTopLevel(item) {
      if item.category_id !in g.parents {
        AppendFresh(g.order, item.category_id);
      }
    } else {
      var p := item.parent_id.value;
      if p !in g.childTotals {
        AppendFresh(g.childOrder, p);
      }
      if p !in g.parents && Find(data, p).Some? {
        AppendFresh(g.order, p);
      }
    }
  }

  /** The merge loop after its first `j` child totals. */
  function MergedUpTo(g: Grouping, j: nat): (m: map<string, SpendingItem>)
    requires Wf(g) && j <= |g.childOrder|
    ensures m.Keys == g.parents.Keys
  {
    if j == 0 then g.parents
    else
      var m := MergedUpTo(g, j - 1);
      var pid := g.childOrder[j - 1];
      if pid in m then m[pid := m[pid].(total := m[pid].total + g.childTotals[pid])] else m
  }

  /** `parentMap.values()`, in insertion order. */
  function Values(g: Grouping, m: map<string, SpendingItem>): (r: seq<SpendingItem>)
    requires Wf(g) && m.Keys == g.parents.Keys
    ensures |r| == |g.order|
  {
    seq(|g.order|, k requires 0 <= k < |g.order| => m[g.order[k]])
  }

  /** `.filter((item) => Math.abs(item.total) > 0)`. */
  function NonZero(s: seq<SpendingItem>): (r: seq<SpendingItem>)
    ensures forall item :: item in r <==> item in s && item.total != 0
  {
    if s == [] then []
    else NonZero(s[..|s| - 1]) + (if s[|s| - 1].total != 0 then [s[|s| - 1]] else [])
  }

  /** The parent entries once both loops of `groupSpendingByParent` have run. */
  function Merged(data: seq<SpendingItem>): map<string, SpendingItem>
  {
    var g := Gather(data, |data|);
    GatherWf(data, |data|);
    MergedUpTo(g, |g.childOrder|)
  }

  function Grouped(data: seq<SpendingItem>, selected: Option<string>): seq<SpendingItem>
  {
    if selected.Some? && selected.value != "" then ByMagnitude(ChildrenOf(data, selected.value))
    else
      var g := Gather(data, |data|);
      GatherWf(data, |data|);
      ByMagnitude(NonZero(Values(g, Merged(data))))
  }

  /** `groupSpendingByParent`. */
  method GroupSpendingByParent(data: seq<SpendingItem>, selected: Option<string>) returns (r: seq<SpendingItem>)
    ensures r == Grouped(data, selected)
  {
    if selected.Some? && selected.value != "" {
      return ByMagnitude(ChildrenOf(data, selected.value));
    }
    var g := CollectEntries(data);
    GatherWf(data, |data|);
    var merged := MergeChildTotals(g);
    var values := seq(|g.order|, k requires 0 <= k < |g.order| => merged[g.order[k]]);
    r := ByMagnitude(NonZero(values));
  }

  /** The first loop: an entry per top-level category the first time it
      appears, child totals per parent, and a zero entry for a parent first
      met through a child. */
  method CollectEntries(data: seq<SpendingItem>) returns (g: Grouping)
    ensures g == Gather(data, |data|)
  {
    var order: seq<string> := [];
    var parentMap: map<string, SpendingItem> := map[];
    var childOrder: seq<string> := [];
    var childTotals: map<string, int> := map[];
    for i := 0 to |data|
      invariant Grouping(order, parentMap, childOrder, childTotals) == Gather(data, i)
    {
      var item := data[i];
      if item.parent_id.None? || item.parent_id.value == "" {
        if item.category_id !in parentMap {
          order := order + [item.category_id];
          parentMap := parentMap[item.category_id := item];
        }
      } else {
        var p := item.parent_id.value;
        if p !in childTotals {
          childOrder := childOrder + [p];
        }
        childTotals := childTotals[p := (if p in childTotals then childTotals[p] else 0) + item.total];
        if p !in parentMap {
          var parentEntry := Find(data, p);
          if parentEntry.Some? {
            order := order + [p];
            parentMap := parentMap[p := parentEntry.value.(total := 0)];
          }
        }
      }
    }
    g := Grouping(order, parentMap, childOrder, childTotals);
  }

  /** The second loop: each child total is added to its parent's entry,
      when there is one. */
  method MergeChildTotals(g: Grouping) returns (parentMap: map<string, SpendingItem>)
    requires Wf(g)
    ensures parentMap == MergedUpTo(g, |g.childOrder|)
  {
    parentMap := g.parents;
    for j := 0 to |g.childOrder|
      invariant parentMap == MergedUpTo(g, j)
    {
      var parentId := g.childOrder[j];
      MergedUpToStep(g, j);
      if parentId in parentMap {
        parentMap := parentMap[parentId := parentMap[parentId].(total := parentMap[parentId].total + g.childTotals[parentId])];
      }
    }
  }

  /** One more child total merged. */
  lemma MergedUpToStep(g: Grouping, j: nat)
    requires Wf(g) && j < |g.childOrder|
    ensures var m := MergedUpTo(g, j); var pid := g.childOrder[j];
      MergedUpTo(g, j + 1) == if pid in m then m[pid := m[pid].(total := m[pid].total + g.childTotals[pid])] else m
  {
  }

  // ---------------------------------------------------------------------
  // What the grouping computes

  /** An item that is a child of `p`. */
  predicate IsChildOf(item: SpendingItem, p: string)
  {
    !IsTopLevel(item) && item.parent_id.value == p
  }

  /** The children's totals of `p`, added up. */
  function ChildSum(items: seq<SpendingItem>, p: string): int
  {
    if items == [] then 0
    else ChildSum(items[..|items| - 1], p) + (if IsChildOf(items[|items| - 1], p) then items[|items| - 1].total else 0)
  }

  /** An item that makes the first loop create the entry for `id` when
      there is none yet: the top-level item of that category, or a child of
      it when the category appears somewhere in the data. */
  predicate RefersTo(data: seq<SpendingItem>, item: SpendingItem, id: string)
  {
    (IsTopLevel(item) && item.category_id == id) || (IsChildOf(item, id) && Find(data, id).Some?)
  }

  /** The entry such an item creates: a copy of the top-level item, or a
      copy of the category's first row with total 0. */
  function EntryFor(data: seq<SpendingItem>, item: SpendingItem, id: string): SpendingItem
    requires RefersTo(data, item, id)
  {
    if IsTopLevel(item) && item.category_id == id then item else Find(data, id).value.(total := 0)
  }

  /** `j` is the first item referring to `id`. */
  predicate FirstReference(data: seq<SpendingItem>, j: nat, id: string)
  {
    j < |data| && RefersTo(data, data[j], id) && forall i :: 0 <= i < j ==> !RefersTo(data, data[i], id)
  }

  /** After `n` items: an entry exists exactly for the ids some item so far
      refers to, and it is the one the first such item created. */
  lemma {:induction false} GatherParents(data: seq<SpendingItem>, n: nat, id: string)
    requires n <= |data|
    ensures id in Gather(data, n).parents <==> exists j :: 0 <= j < n && RefersTo(data, data[j], id)
    ensures forall j :: 0 <= j < n && FirstReference(data, j, id) ==>
      id in Gather(data, n).parents && Gather(data, n).parents[id] == EntryFor(data, data[j], id)
  {
    if n > 0 {
      GatherParents(data, n - 1, id);
      var item := data[n - 1];
      if RefersTo(data, item, id) && id !in Gather(data, n - 1).parents {
        forall j | 0 <= j < n && FirstReference(data, j, id)
          ensures Gather(data, n).parents[id] == EntryFor(data, data[j], id)
        {
          assert j == n - 1;
        }
      }
    }
  }

  /** After `n` items: a child total exists exactly for the parents some
      child so far names, and it adds up those children's totals. */
  lemma {:induction false} GatherChildTotals(data: seq<SpendingItem>, n: nat, p: string)
    requires n <= |data|
    ensures p in Gather(data, n).childTotals <==> exists j :: 0 <= j < n && IsChildOf(data[j], p)
    ensures p in Gather(data, n).childTotals ==> Gather(data, n).childTotals[p] == ChildSum(data[..n], p)
    ensures p !in Gather(data, n).childTotals ==> ChildSum(data[..n], p) == 0
  {
    if n > 0 {
      GatherChildTotals(data, n - 1, p);
      assert data[..n][..n - 1] == data[..n - 1];
    }
  }

  /** The merge adds each parent's child total to its entry and changes
      nothing else. */
  lemma {:induction false} MergedTotal(g: Grouping, j: nat, id: string)
    requires Wf(g) && j <= |g.childOrder| && id in g.parents
    ensures MergedUpTo(g, j)[id]
         == g.parents[id].(total := g.parents[id].total
                                   + if id in g.childOrder[..j] then g.childTotals[id] else 0)
  {
    if j > 0 {
      MergedTotal(g, j - 1, id);
      assert g.childOrder[..j] == g.childOrder[..j - 1] + [g.childOrder[j - 1]];
      if g.childOrder[j - 1] == id {
        assert id !in g.childOrder[..j - 1];
      }
    }
  }

  /** The merged entry of an id at the end of both loops. */
  lemma FinalEntry(data: seq<SpendingItem>, id: string)
    requires id in Gather(data, |data|).parents
    ensures var p := Gather(data, |data|).parents[id];
      Merged(data)[id] == p.(total := p.total + ChildSum(data, id))
  {
    var g := Gather(data, |data|);
    GatherWf(data, |data|);
    GatherChildTotals(data, |data|, id);
    MergedTotal(g, |g.childOrder|, id);
    assert g.childOrder[..|g.childOrder|] == g.childOrder;
    assert data[..|data|] == data;
  }

  /** Every grouped entry is the merged entry of its own category. */
  lemma GroupedMember(data: seq<SpendingItem>, x: SpendingItem)
    requires x in Grouped(data, None)
    ensures x.total != 0
    ensures x.category_id in Gather(data, |data|).parents
    ensures x == Merged(data)[x.category_id]
  {
    var g := Gather(data, |data|);
    GatherWf(data, |data|);
    var merged := Merged(data);
    var values := Values(g, merged);
    ByMagnitudeSorts(NonZero(values));
    assert x in multiset(ByMagnitude(NonZero(values)));
    assert x in NonZero(values);
    var k :| 0 <= k < |values| && values[k] == x;
    FinalEntry(data, g.order[k]);
  }

  /** The merged entry of the category an item first refers to: what
      that item created plus all the category's children's totals. */
  lemma EntryOfFirstReference(data: seq<SpendingItem>, j: nat, id: string)
    requires FirstReference(data, j, id)
    ensures id in Merged(data)
    ensures var base := EntryFor(data, data[j], id);
      Merged(data)[id] == base.(total := base.total + ChildSum(data, id))
  {
    GatherParents(data, |data|, id);
    FinalEntry(data, id);
  }

  /** Without a selection, the entry of a category is what its first
      reference created plus all its children's totals: shown when that is
      not zero, and never shown twice or with another total. */
  lemma GroupedEntry(data: seq<SpendingItem>, j: nat, id: string)
    requires FirstReference(data, j, id)
    ensures var base := EntryFor(data, data[j], id);
      var e := base.(total := base.total + ChildSum(data, id));
      && (e.total != 0 ==> e in Grouped(data, None))
      && (forall x :: x in Grouped(data, None) && x.category_id == id ==> x == e)
  {
    EntryOfFirstReference(data, j, id);
    var e := Merged(data)[id];
    forall x | x in Grouped(data, None) && x.category_id == id
      ensures x == e
    {
      GroupedMember(data, x);
    }
    if e.total != 0 {
      EntryShown(data, id);
    }
  }

  /** A merged entry with a nonzero total is in the grouping. */
  lemma EntryShown(data: seq<SpendingItem>, id: string)
    requires id in Merged(data) && Merged(data)[id].total != 0
    ensures Merged(data)[id] in Grouped(data, None)
  {
    var g := Gather(data, |data|);
    GatherWf(data, |data|);
    var values := Values(g, Merged(data));
    var k :| 0 <= k < |g.order| && g.order[k] == id;
    assert values[k] == Merged(data)[id];
    KeptWhenNonZero(values[k], values);
    assert Grouped(data, None) == ByMagnitude(NonZero(values));
  }

  /** Sorting the nonzero entries keeps every one of them. */
  lemma KeptWhenNonZero(x: SpendingItem, s: seq<SpendingItem>)
    requires x in s && x.total != 0
    ensures x in ByMagnitude(NonZero(s))
  {
    ByMagnitudeSorts(NonZero(s));
    assert x in multiset(ByMagnitude(NonZero(s)));
  }

  /** A child whose parent category appears nowhere in the data is
      dropped: no entry carries that parent's id. */
  lemma OrphanChildrenDropped(data: seq<SpendingItem>, p: string)
    requires Find(data, p).None?
    ensures forall x :: x in Grouped(data, None) ==> x.category_id != p
  {
    forall x | x in Grouped(data, None)
      ensures x.category_id != p
    {
      GroupedMember(data, x);
      GatherParents(data, |data|, x.category_id);
    }
  }

  /** Both branches list their entries largest first; the grouping drops
      zero totals, and the drill-down lists exactly the selected parent's
      children. */
  lemma GroupedOrder(data: seq<SpendingItem>, selected: Option<string>)
    ensures LargestFirst(Grouped(data, selected))
    ensures selected.Some? && selected.value != "" ==>
      multiset(Grouped(data, selected)) == multiset(ChildrenOf(data, selected.value))
    ensures !(selected.Some? && selected.value != "") ==> forall x :: x in Grouped(data, selected) ==> x.total != 0
  {
    if selected.Some? && selected.value != "" {
      ByMagnitudeSorts(ChildrenOf(data, selected.value));
    } else {
      var g := Gather(data, |data|);
      GatherWf(data, |data|);
      ByMagnitudeSorts(NonZero(Values(g, Merged(data))));
      forall x | x in Grouped(data, selected)
        ensures x.total != 0
      {
        GroupedMember(data, x);
      }
    }
  }

  /** Listed before its child, a parent's entry carries its own spending
      plus the child's. */
  lemma ParentFirst()
    ensures var parent := SpendingItem("food", "Food", None, None, 700, None);
      var child := SpendingItem("groceries", "Groceries", None, None, 500, Some("food"));
      parent.(total := 1200) in Grouped([parent, child], None)
  {
    var parent := SpendingItem("food", "Food", None, None, 700, None);
    var child := SpendingItem("groceries", "Groceries", None, None, 500, Some("food"));
    var data := [parent, child];
    assert data[..1] == [parent] && data[..0] == [];
    assert ChildSum([parent], "food") == 0;
    assert ChildSum(data, "food") == 500;
    assert FirstReference(data, 0, "food");
    GroupedEntry(data, 0, "food");
  }

  /** The first loop keeps the entry it created first, even when that
      entry is a zero placeholder made for a child: a parent listed after
      one of its children loses its own spending. */
  lemma ChildFirst()
    ensures var parent := SpendingItem("food", "Food", None, None, 700, None);
      var child := SpendingItem("groceries", "Groceries", None, None, 500, Some("food"));
      && parent.(total := 500) in Grouped([child, parent], None)
      && parent.(total := 1200) !in Grouped([child, parent], None)
  {
    var parent := SpendingItem("food", "Food", None, None, 700, None);
    var child := SpendingItem("groceries", "Groceries", None, None, 500, Some("food"));
    var data := [child, parent];
    assert data[..1] == [child] && data[..0] == [];
    assert ChildSum([child], "food") == 500;
    assert ChildSum(data, "food") == 500;
    assert Find(data, "food") == Some(parent);
    assert FirstReference(data, 0, "food");
    GroupedEntry(data, 0, "food");
  }

  /** The top-level items, in order. */
  function Tops(data: seq<SpendingItem>): (r: seq<SpendingItem>)
    ensures forall item :: item in r ==> IsTopLevel(item)
  {
    if data == [] then [] else (if IsTopLevel(data[0]) then [data[0]] else []) + Tops(data[1..])
  }

  /** The child items, in order. */
  function Kids(data: seq<SpendingItem>): (r: seq<SpendingItem>)
    ensures forall item :: item in r ==> !IsTopLevel(item)
  {
    if data == [] then [] else (if IsTopLevel(data[0]) then [] else [data[0]]) + Kids(data[1..])
  }

  /** The first top-level item of a category. */
  function FirstTop(data: seq<SpendingItem>, id: string): (r: Option<SpendingItem>)
    ensures r.Some? ==> r.value in data && IsTopLevel(r.value) && r.value.category_id == id
  {
    if data == [] then None
    else if IsTopLevel(data[0]) && data[0].category_id == id then Some(data[0])
    else FirstTop(data[1..], id)
  }

  /** The grouping with every top-level item gathered before any child, so
      that a placeholder never takes the place of a parent's own entry. */
  function CorrectedGrouped(data: seq<SpendingItem>): seq<SpendingItem>
  {
    Grouped(Tops(data) + Kids(data), None)
  }

  lemma {:induction false} ChildSumAppend(a: seq<SpendingItem>, b: seq<SpendingItem>, p: string)
    ensures ChildSum(a + b, p) == ChildSum(a, p) + ChildSum(b, p)
  {
    if b == [] {
      assert a + b == a;
    } else {
      assert (a + b)[..|a + b| - 1] == a + b[..|b| - 1];
      assert (a + b)[|a + b| - 1] == b[|b| - 1];
      ChildSumAppend(a, b[..|b| - 1], p);
    }
  }

  /** Only children count: the top-level items add nothing, the children
      all of it. */
  lemma {:induction false} ChildSumSplit(data: seq<SpendingItem>, p: string)
    ensures ChildSum(Tops(data), p) == 0
    ensures ChildSum(Kids(data), p) == ChildSum(data, p)
  {
    if data != [] {
      ChildSumSplit(data[1..], p);
      assert data == [data[0]] + data[1..];
      ChildSumAppend([data[0]], data[1..], p);
      assert [data[0]][..0] == [];
      var head := if IsTopLevel(data[0]) then [data[0]] else [];
      var kid := if IsTopLevel(data[0]) then [] else [data[0]];
      ChildSumAppend(head, Tops(data[1..]), p);
      ChildSumAppend(kid, Kids(data[1..]), p);
      assert ChildSum(head, p) == 0 by {
        if head != [] { assert head[..0] == []; }
      }
    }
  }

  /** `k` is the position of the first top-level item of `id` among the
      top-level items. */
  predicate FirstTopAt(data: seq<SpendingItem>, id: string, k: nat)
    requires FirstTop(data, id).Some?
  {
    k < |Tops(data)| && Tops(data)[k] == FirstTop(data, id).value
    && forall i :: 0 <= i < k ==> Tops(data)[i].category_id != id
  }

  /** Where the first top-level item of a category sits among the
      top-level items. */
  lemma {:induction false} FirstTopIndex(data: seq<SpendingItem>, id: string)
    requires FirstTop(data, id).Some?
    ensures exists k: nat :: FirstTopAt(data, id, k)
  {
    if IsTopLevel(data[0]) && data[0].category_id == id {
      assert Tops(data)[0] == data[0];
      assert FirstTopAt(data, id, 0);
    } else {
      FirstTopIndex(data[1..], id);
      var k: nat :| FirstTopAt(data[1..], id, k);
      if IsTopLevel(data[0]) {
        assert Tops(data) == [data[0]] + Tops(data[1..]);
        assert Tops(data)[k + 1] == FirstTop(data, id).value;
        assert forall i :: 0 < i < k + 1 ==> Tops(data)[i] == Tops(data[1..])[i - 1];
        assert FirstTopAt(data, id, k + 1);
      } else {
        assert Tops(data) == Tops(data[1..]);
        assert FirstTopAt(data, id, k);
      }
    }
  }

  /** Once the top-level items come first, the first top-level item of a
      category is the first item referring to it. */
  lemma TopsFirstReference(data: seq<SpendingItem>, id: string, k: nat)
    requires FirstTop(data, id).Some? && FirstTopAt(data, id, k)
    ensures FirstReference(Tops(data) + Kids(data), k, id)
    ensures (Tops(data) + Kids(data))[k] == FirstTop(data, id).value
  {
    var d := Tops(data) + Kids(data);
    assert forall i :: 0 <= i < k ==> d[i] == Tops(data)[i] && d[i] in Tops(data);
  }

  /** With the correction, a category's entry is its first top-level item
      with all its children's totals added, wherever the children stand in
      the data: shown when not zero, and the only entry of that category. */
  lemma CorrectedEntry(data: seq<SpendingItem>, id: string)
    requires FirstTop(data, id).Some?
    ensures var t := FirstTop(data, id).value;
      var e := t.(total := t.total + ChildSum(data, id));
      && (e.total != 0 ==> e in CorrectedGrouped(data))
      && (forall x :: x in CorrectedGrouped(data) && x.category_id == id ==> x == e)
  {
    var t := FirstTop(data, id).value;
    var d := Tops(data) + Kids(data);
    FirstTopIndex(data, id);
    var k: nat :| FirstTopAt(data, id, k);
    TopsFirstReference(data, id, k);
    ChildSumSplit(data, id);
    ChildSumAppend(Tops(data), Kids(data), id);
    assert ChildSum(d, id) == ChildSum(data, id);
    GroupedEntry(d, k, id);
  }
}
