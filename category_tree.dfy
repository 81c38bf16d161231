/** The category tree (src/hooks/useCategories.ts, `useCategoryTree`): one
    node per top-level category, holding the categories whose parent is
    that category, in the order the categories were read. */
module CategoryTree {
  import opened Common
  import opened Ledger

  datatype CategoryNode = CategoryNode(parent: Category, children: seq<Category>)

  /** `cat.parent_id` is truthy: set and not empty. */
  predicate HasParent(c: Category)
  {
    c.parent_id.Some? && c.parent_id.value != ""
  }

  /** `categories.filter(c => !c.parent_id)`. */
  function Roots(cats: seq<Category>): (r: seq<Category>)
    ensures forall c :: c in r <==> c in cats && !HasParent(c)
  {
    if cats == [] then []
    else
      var last := cats[|cats| - 1];
      Roots(cats[..|cats| - 1]) + (if HasParent(last) then [] else [last])
  }

  /** The categories whose parent is `p`, in order. */
  function ChildrenOf(cats: seq<Category>, p: string): (r: seq<Category>)
    ensures forall c :: c in r <==> c in cats && HasParent(c) && c.parent_id.value == p
  {
    if cats == [] then []
    else
      var last := cats[|cats| - 1];
      ChildrenOf(cats[..|cats| - 1], p) + (if HasParent(last) && last.parent_id.value == p then [last] else [])
  }

  /** `childrenByParent.get(p) ?? []`. */
  function ListOf(m: map<string, seq<Category>>, p: string): seq<Category>
  {
    if p in m then m[p] else []
  }

  /** `childrenByParent` after the loop has read `cats`. */
  function ChildrenByParent(cats: seq<Category>): map<string, seq<Category>>
  {
    if cats == [] then map[]
    else
      var m := ChildrenByParent(cats[..|cats| - 1]);
      var c := cats[|cats| - 1];
      if HasParent(c) then m[c.parent_id.value := ListOf(m, c.parent_id.value) + [c]] else m
  }

  /** The list the loop keeps for `p` holds exactly the children of `p`, in
      order, and the map has a key exactly for the ids some category names
      as its parent. */
  lemma {:induction false} ChildrenByParentMeaning(cats: seq<Category>, p: string)
    ensures ListOf(ChildrenByParent(cats), p) == ChildrenOf(cats, p)
    ensures p in ChildrenByParent(cats) <==> ChildrenOf(cats, p) != []
  {
    if cats != [] {
      ChildrenByParentMeaning(cats[..|cats| - 1], p);
    }
  }

  /** The tree of the categories as read; empty while they are not
      loaded. */
  function Tree(categories: Option<seq<Category>>): seq<CategoryNode>
  {
    if categories.None? then []
    else
      var cats := categories.value;
      var roots := Roots(cats);
      seq(|roots|, k requires 0 <= k < |roots| => CategoryNode(roots[k], ChildrenOf(cats, roots[k].id)))
  }

  /** `useCategoryTree`: the loop fills `childrenByParent`, then every root
      gets the list kept under its id. */
  method UseCategoryTree(categories: Option<seq<Category>>) returns (tree: seq<CategoryNode>)
    ensures tree == Tree(categories)
  {
    if categories.None? {
      return [];
    }
    var cats := categories.value;
    var parents := Roots(cats);
    var childrenByParent: map<string, seq<Category>> := map[];
    for i := 0 to |cats|
      invariant childrenByParent == ChildrenByParent(cats[..i])
    {
      var cat := cats[i];
      assert cats[..i + 1][..i] == cats[..i];
      if cat.parent_id.Some? && cat.parent_id.value != "" {
        var list := if cat.parent_id.value in childrenByParent then childrenByParent[cat.parent_id.value] else [];
        list := list + [cat];
        childrenByParent := childrenByParent[cat.parent_id.value := list];
      }
    }
    assert cats[..|cats|] == cats;
    forall k | 0 <= k < |parents|
      ensures ListOf(childrenByParent, parents[k].id) == ChildrenOf(cats, parents[k].id)
    {
      ChildrenByParentMeaning(cats, parents[k].id);
    }
    tree := seq(|parents|, k requires 0 <= k < |parents| => CategoryNode(parents[k], ListOf(childrenByParent, parents[k].id)));
  }

  /** The nodes are the top-level categories, one each, in order, and each
      node lists exactly the categories naming it as parent. */
  lemma TreeShape(categories: seq<Category>)
    ensures |Tree(Some(categories))| == |Roots(categories)|
    ensures forall k :: 0 <= k < |Tree(Some(categories))| ==>
      Tree(Some(categories))[k].parent == Roots(categories)[k] && !HasParent(Tree(Some(categories))[k].parent)
    ensures forall n, c :: n in Tree(Some(categories)) && c in n.children <==>
      n in Tree(Some(categories)) && c in categories && HasParent(c) && c.parent_id.value == n.parent.id
  {
    var roots := Roots(categories);
    forall k | 0 <= k < |roots|
      ensures !HasParent(roots[k])
    {
      assert roots[k] in roots;
    }
  }

  /** A category whose parent is not a top-level category appears in no
      node. */
  lemma OrphansLeftOut(categories: seq<Category>, c: Category)
    requires HasParent(c)
    requires forall r :: r in Roots(categories) ==> r.id != c.parent_id.value
    ensures forall n :: n in Tree(Some(categories)) ==> c !in n.children
  {
    var tree := Tree(Some(categories));
    forall n | n in tree
      ensures c !in n.children
    {
      var k :| 0 <= k < |tree| && tree[k] == n;
      assert n.parent in Roots(categories);
    }
  }

  /** A category with a parent sits in exactly one list of the map: the one
      kept under its parent's id. */
  lemma InExactlyOneList(cats: seq<Category>, c: Category, p: string)
    requires c in cats && HasParent(c)
    ensures c in ListOf(ChildrenByParent(cats), p) <==> p == c.parent_id.value
  {
    ChildrenByParentMeaning(cats, p);
  }

  /** The children lists keep the order the categories were read in: each
      is the subsequence of the input naming that parent. */
  lemma {:induction false} ChildrenKeepOrder(cats: seq<Category>, p: string, i: nat, j: nat)
    requires i < j < |ChildrenOf(cats, p)|
    ensures exists a, b :: 0 <= a < b < |cats| && cats[a] == ChildrenOf(cats, p)[i] && cats[b] == ChildrenOf(cats, p)[j]
  {
    var init := cats[..|cats| - 1];
    var r := ChildrenOf(cats, p);
    if j < |ChildrenOf(init, p)| {
      ChildrenKeepOrder(init, p, i, j);
      var a, b :| 0 <= a < b < |init| && init[a] == ChildrenOf(init, p)[i] && init[b] == ChildrenOf(init, p)[j];
      assert cats[a] == r[i] && cats[b] == r[j];
    } else {
      assert r[j] == cats[|cats| - 1];
      assert r[i] == ChildrenOf(init, p)[i];
      assert r[i] in init;
      var a :| 0 <= a < |init| && init[a] == r[i];
      assert cats[a] == r[i];
    }
  }
}
