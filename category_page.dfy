/** The admin category page: the category tree it fetches, flattened in
    pre-order for the parent pickers; the search filter over the tree; the
    set of expanded rows; and the pagination of the filtered roots. */
module CategoryPage {
  import opened Common

  /** A tree node as the back end sends it. */
  datatype TreeNode = TreeNode(id: string, name: string, parentId: Option<string>, level: int, children: seq<TreeNode>)

  /** A flattened category: the node without its children. */
  datatype FlatCategory = FlatCategory(id: string, name: string, parentId: Option<string>, level: int)

  function Flat(n: TreeNode): FlatCategory
  {
    FlatCategory(n.id, n.name, n.parentId, n.level)
  }

  // ---------------------------------------------------------------------
  // flatten

  /** The nodes of a forest in pre-order: each node, then its subtree,
      then its later siblings. */
  function PreOrder(items: seq<TreeNode>): seq<FlatCategory>
    decreases items
  {
    if items == [] then []
    else [Flat(items[0])] + PreOrder(items[0].children) + PreOrder(items[1..])
  }

  /** The number of nodes in a forest. */
  function Count(items: seq<TreeNode>): nat
    decreases items
  {
    if items == [] then 0 else 1 + Count(items[0].children) + Count(items[1..])
  }

  /** The pre-order list has one entry per node of the forest. */
  lemma {:induction false} PreOrderCount(items: seq<TreeNode>)
    ensures |PreOrder(items)| == Count(items)
    decreases items
  {
    if items != [] {
      PreOrderCount(items[0].children);
      PreOrderCount(items[1..]);
    }
  }

  /** The pre-order list of a forest with one more tree at its end. */
  lemma {:induction false} PreOrderSnoc(items: seq<TreeNode>, x: TreeNode)
    ensures PreOrder(items + [x]) == PreOrder(items) + [Flat(x)] + PreOrder(x.children)
    decreases items
  {
    if items == [] {
      assert [x][1..] == [];
      assert items + [x] == [x];
    } else {
      assert (items + [x])[0] == items[0];
      assert (items + [x])[1..] == items[1..] + [x];
      PreOrderSnoc(items[1..], x);
    }
  }

  /** Every node has an entry in the pre-order list, and the first entry
      of a non-empty forest is its first root. */
  lemma {:induction false} PreOrderHasNodes(items: seq<TreeNode>, i: int)
    requires 0 <= i < |items|
    ensures Flat(items[i]) in PreOrder(items)
    ensures PreOrder(items)[0] == Flat(items[0])
    decreases items
  {
    if i > 0 {
      PreOrderHasNodes(items[1..], i - 1);
      assert items[1..][i - 1] == items[i];
    }
  }

  /** `flatten`'s list, which `traverse` pushes onto. */
  class Flattener {
    var flatResult: seq<FlatCategory>

    constructor()
      ensures flatResult == []
    {
      flatResult := [];
    }

    /** `traverse`: pushes each item, then traverses its children. */
    method Traverse(items: seq<TreeNode>)
      modifies this
      ensures flatResult == old(flatResult) + PreOrder(items)
      decreases items
    {
      for k := 0 to |items|
        invariant flatResult == old(flatResult) + PreOrder(items[..k])
      {
        var item := items[k];
        flatResult := flatResult + [Flat(item)];
        Traverse(item.children);
        PreOrderSnoc(items[..k], item);
        assert items[..k + 1] == items[..k] + [item];
      }
      assert items[..|items|] == items;
    }
  }

  /** `flatten`: every node of the fetched tree, in pre-order. */
  method Flatten(cats: seq<TreeNode>) returns (r: seq<FlatCategory>)
    ensures r == PreOrder(cats)
    ensures |r| == Count(cats)
  {
    var f := new Flattener();
    f.Traverse(cats);
    r := f.flatResult;
    PreOrderCount(cats);
  }

  // ---------------------------------------------------------------------
  // filterCategories

  /** `toLowerCase`, on ASCII letters. */
  function Lower(c: char): (l: char)
    ensures 'A' <= c <= 'Z' ==> l as int == c as int + 32
    ensures !('A' <= c <= 'Z') ==> l == c
  {
    if 'A' <= c <= 'Z' then (c as int + 32) as char else c
  }

  function LowerStr(s: string): (r: string)
    ensures |r| == |s| && forall i :: 0 <= i < |s| ==> r[i] == Lower(s[i])
  {
    seq(|s|, i requires 0 <= i < |s| => Lower(s[i]))
  }

  /** `includes`: `t` occurs in `s` at some position. */
  predicate Includes(s: string, t: string)
  {
    exists i :: 0 <= i <= |s| - |t| && OccursAt(s, t, i)
  }

  predicate OccursAt(s: string, t: string, i: int)
    requires 0 <= i <= |s| - |t|
  {
    s[i..i + |t|] == t
  }

  /** The case-insensitive match of a name against the search term. */
  predicate Matches(name: string, term: string)
  {
    Includes(LowerStr(name), LowerStr(term))
  }

  /** A node belongs in the filtered tree when its name matches or one of
      its descendants' does. */
  predicate Relevant(n: TreeNode, term: string)
    decreases n
  {
    Matches(n.name, term) || exists i :: 0 <= i < |n.children| && Relevant(n.children[i], term)
  }

  /** The relevant items, in their order. */
  function Select(items: seq<TreeNode>, term: string): (r: seq<TreeNode>)
    ensures |r| <= |items|
    ensures forall x :: x in r ==> x in items && Relevant(x, term)
  {
    if items == [] then []
    else (if Relevant(items[0], term) then [items[0]] else []) + Select(items[1..], term)
  }

  /** `filterCategories`: the whole forest for an empty term; otherwise
      each node that matches or keeps a child, with its children filtered
      in turn. */
  function FilterCategories(cats: seq<TreeNode>, term: string): seq<TreeNode>
    decreases cats
  {
    if term == "" then cats
    else if cats == [] then []
    else
      var category := cats[0];
      var childrenFiltered := FilterCategories(category.children, term);
      var keep := Matches(category.name, term) || |childrenFiltered| > 0;
      (if keep then [category.(children := childrenFiltered)] else []) + FilterCategories(cats[1..], term)
  }

  /** Each node with its children filtered, in order. */
  function Pruned(items: seq<TreeNode>, term: string): (r: seq<TreeNode>)
    ensures |r| == |items|
    ensures forall i :: 0 <= i < |items| ==> r[i] == items[i].(children := FilterCategories(items[i].children, term))
  {
    if items == [] then []
    else [items[0].(children := FilterCategories(items[0].children, term))] + Pruned(items[1..], term)
  }

  /** For a non-empty term, the filtered forest is empty exactly when
      nothing in the forest is relevant. */
  lemma {:induction false} FilterEmpty(cats: seq<TreeNode>, term: string)
    requires term != ""
    ensures FilterCategories(cats, term) == [] <==> !exists i :: 0 <= i < |cats| && Relevant(cats[i], term)
    decreases cats
  {
    if cats != [] {
      FilterEmpty(cats[0].children, term);
      FilterEmpty(cats[1..], term);
      assert forall i :: 1 <= i < |cats| ==> cats[i] == cats[1..][i - 1];
    }
  }

  /** For a non-empty term, the filtered forest holds exactly the relevant
      nodes, in their order, each with its own children filtered. */
  lemma {:induction false} FilterSelects(cats: seq<TreeNode>, term: string)
    requires term != ""
    ensures FilterCategories(cats, term) == Pruned(Select(cats, term), term)
    decreases cats
  {
    if cats != [] {
      var category := cats[0];
      FilterEmpty(category.children, term);
      FilterSelects(cats[1..], term);
      var rest := Select(cats[1..], term);
      if Relevant(category, term) {
        assert Select(cats, term) == [category] + rest;
        assert ([category] + rest)[1..] == rest;
      }
    }
  }

  /** For a non-empty term, a node is kept exactly when its name matches or
      its filtered children are not empty. */
  lemma RelevantIffKept(n: TreeNode, term: string)
    requires term != ""
    ensures Relevant(n, term) <==> Matches(n.name, term) || FilterCategories(n.children, term) != []
  {
    FilterEmpty(n.children, term);
  }

  /** An empty term leaves the forest as it is; a filtered forest is never
      longer than the forest and its nodes are relevant ones of it. */
  lemma FilterBounds(cats: seq<TreeNode>, term: string)
    ensures term == "" ==> FilterCategories(cats, term) == cats
    ensures |FilterCategories(cats, term)| <= |cats|
    ensures term != "" ==> forall n :: n in FilterCategories(cats, term) ==>
      exists x :: x in cats && Relevant(x, term) && n == x.(children := FilterCategories(x.children, term))
  {
    if term != "" {
      FilterSelects(cats, term);
      var sel := Select(cats, term);
      forall n | n in FilterCategories(cats, term)
        ensures exists x :: x in cats && Relevant(x, term) && n == x.(children := FilterCategories(x.children, term))
      {
        var i :| 0 <= i < |sel| && Pruned(sel, term)[i] == n;
        assert sel[i] in sel;
      }
    }
  }

  // ---------------------------------------------------------------------
  // toggleExpanded

  /** The expanded set with `id` flipped. */
  function Toggled(expanded: set<string>, id: string): (r: set<string>)
    ensures id in r <==> id !in expanded
    ensures forall x :: x != id ==> (x in r <==> x in expanded)
  {
    if id in expanded then expanded - {id} else expanded + {id}
  }

  /** Toggling the same row twice restores the expanded set. */
  lemma ToggleTwice(expanded: set<string>, id: string)
    ensures Toggled(Toggled(expanded, id), id) == expanded
  {
  }

  // ---------------------------------------------------------------------
  // pagination

  /** How `Array.prototype.slice` reads an index: negative from the end,
      clamped to the array. */
  function SliceIndex(k: int, len: nat): (r: nat)
    ensures r <= len
  {
    if k < 0 then (if len + k < 0 then 0 else len + k)
    else if k > len then len else k
  }

  /** `Array.prototype.slice(start, end)`. */
  function Slice<T>(s: seq<T>, start: int, end: int): seq<T>
  {
    var a := SliceIndex(start, |s|);
    var b := SliceIndex(end, |s|);
    if a >= b then [] else s[a..b]
  }

  /** The items shown on page `page` with `perPage` items a page. */
  function PageItems<T>(items: seq<T>, page: int, perPage: int): seq<T>
  {
    var indexOfLastItem := page * perPage;
    var indexOfFirstItem := indexOfLastItem - perPage;
    Slice(items, indexOfFirstItem, indexOfLastItem)
  }

  /** `Math.ceil(length / perPage)`. */
  function TotalPages(length: nat, perPage: nat): nat
    requires perPage > 0
  {
    (length + perPage - 1) / perPage
  }

  /** Page `page` shows the items from (page - 1) * perPage up to
      page * perPage, cut at the end of the list; it is non-empty exactly
      for the pages that have a button. */
  lemma PageWindow<T>(items: seq<T>, page: int, perPage: int)
    requires page >= 1 && perPage >= 1
    ensures var first := (page - 1) * perPage;
      var last := page * perPage;
      PageItems(items, page, perPage) ==
        if first >= |items| then [] else items[first..if last > |items| then |items| else last]
    ensures |PageItems(items, page, perPage)| <= perPage
    ensures PageItems(items, page, perPage) != [] <==> page <= TotalPages(|items|, perPage)
  {
    var first := (page - 1) * perPage;
    assert first >= 0 && page * perPage == first + perPage;
    TotalPagesBound(|items|, perPage, page);
  }

  /** The last button's page is the first one that reaches past the list. */
  lemma TotalPagesBound(length: nat, perPage: int, page: int)
    requires page >= 1 && perPage >= 1
    ensures (page - 1) * perPage < length <==> page <= TotalPages(length, perPage)
  {
    var t := TotalPages(length, perPage);
    var r := (length + perPage - 1) % perPage;
    assert length + perPage - 1 == t * perPage + r;
    assert (t - 1) * perPage == t * perPage - perPage;
    if page <= t {
      MulMono(page - 1, t - 1, perPage);
    } else {
      MulMono(t, page - 1, perPage);
    }
  }

  /** Each item is on exactly one page: item i is at position i % perPage
      of page i / perPage + 1, and that page has a button. */
  lemma PagesCover<T>(items: seq<T>, perPage: int, i: int)
    requires perPage >= 1 && 0 <= i < |items|
    ensures var page := i / perPage + 1;
      page <= TotalPages(|items|, perPage) &&
      i % perPage < |PageItems(items, page, perPage)| &&
      PageItems(items, page, perPage)[i % perPage] == items[i]
  {
    var page := i / perPage + 1;
    var first := i - i % perPage;
    assert (page - 1) * perPage == first;
    assert page * perPage == first + perPage;
    PageWindow(items, page, perPage);
  }

  /** No other page's window holds index i. */
  lemma PageOfIndex(perPage: int, i: int, page: int)
    requires perPage >= 1 && i >= 0
    requires (page - 1) * perPage <= i < page * perPage
    ensures page == i / perPage + 1
  {
    var q := i / perPage;
    MulLess(page - 1, q + 1, perPage);
    MulLess(q, page, perPage);
  }

  // ---------------------------------------------------------------------
  // the page's state

  /** The page's state: the fetched tree, the expanded rows, the search
      term and the current page; ten items a page. */
  class CategoryPage {
    var categories: seq<TreeNode>
    var expandedCategories: set<string>
    var searchTerm: string
    var currentPage: int
    const itemsPerPage: int := 10

    constructor()
      ensures categories == [] && expandedCategories == {} && searchTerm == ""
      ensures currentPage == 1 && itemsPerPage == 10
    {
      categories := [];
      expandedCategories := {};
      searchTerm := "";
      currentPage := 1;
    }

    /** `toggleExpanded`: copies the set, then removes or adds the id. */
    method ToggleExpanded(categoryId: string)
      modifies this
      ensures expandedCategories == Toggled(old(expandedCategories), categoryId)
      ensures categories == old(categories) && searchTerm == old(searchTerm) && currentPage == old(currentPage)
    {
      var newExpanded := expandedCategories;
      if categoryId in newExpanded {
        newExpanded := newExpanded - {categoryId};
      } else {
        newExpanded := newExpanded + {categoryId};
      }
      expandedCategories := newExpanded;
    }

    /** `paginate`. */
    method Paginate(pageNumber: int)
      modifies this
      ensures currentPage == pageNumber
      ensures categories == old(categories) && searchTerm == old(searchTerm)
      ensures expandedCategories == old(expandedCategories)
    {
      currentPage := pageNumber;
    }

    /** The roots shown: the current page of the filtered tree. */
    function CurrentItems(): seq<TreeNode>
      reads this
    {
      PageItems(FilterCategories(categories, searchTerm), currentPage, itemsPerPage)
    }
  }
}
