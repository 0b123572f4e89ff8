/** The category service: categories with an optional parent and a level,
    the tree built from a list of them, and update and delete. The tree's
    node objects are identified by their category id: the result of
    `buildTree` is the list of root ids together with each node's list of
    child ids, which is the object graph the Java code links up. */
module CategoryService {
  import opened Common

  /** A category row. */
  datatype Category = Category(id: string, name: string, parentId: Option<string>, level: int)

  /** A request to create a category. */
  datatype CategoryRequest = CategoryRequest(name: string, parentId: Option<string>)

  /** No id occurs twice. */
  predicate NoDup(s: seq<string>)
  {
    forall i, j :: 0 <= i < j < |s| ==> s[i] != s[j]
  }

  /** The map `buildTree` fills from the list: by id, a later category
      replacing an earlier one with the same id. */
  function Index(categories: seq<Category>): (m: map<string, Category>)
    ensures forall id :: id in m ==> m[id].id == id
    ensures m.Keys == set c | c in categories :: c.id
  {
    if categories == [] then map[]
    else
      var last := categories[|categories| - 1];
      var front := categories[..|categories| - 1];
      var m := Index(front);
      assert categories == front + [last];
      assert (set c | c in categories :: c.id) == (set c | c in front :: c.id) + {last.id};
      m[last.id := last]
  }

  /** The result of `buildTree`: the roots, and each node's children. */
  datatype Tree = Tree(roots: seq<string>, children: map<string, seq<string>>)

  /** What `buildTree` promises about a tree over `index`: the roots are
      exactly the categories without a parent, each once; every category
      has a child list, holding exactly the categories whose parent it is,
      each once. A category whose parent is not in the index is therefore
      nowhere. */
  ghost predicate Linked(index: map<string, Category>, t: Tree)
  {
    && NoDup(t.roots)
    && (forall id :: id in t.roots <==> id in index && index[id].parentId.None?)
    && t.children.Keys == index.Keys
    && (forall p :: p in t.children ==> NoDup(t.children[p]))
    && (forall p, id :: p in t.children ==> (id in t.children[p] <==> id in index && index[id].parentId == Some(p)))
  }

  /** In a linked tree, a category whose parent is missing from the input
      appears neither among the roots nor in any child list; one whose parent
      is present appears in that parent's list and in no other. */
  lemma LinkedPlacement(index: map<string, Category>, t: Tree, id: string)
    requires Linked(index, t) && id in index && index[id].parentId.Some?
    ensures id !in t.roots
    ensures index[id].parentId.value !in index ==> forall p :: p in t.children ==> id !in t.children[p]
    ensures index[id].parentId.value in index ==>
      && id in t.children[index[id].parentId.value]
      && forall p :: p in t.children && p != index[id].parentId.value ==> id !in t.children[p]
  {
  }

  /** `Linked`, for the categories in `done` only: what the second loop of
      `buildTree` has linked so far. */
  ghost predicate Partial(index: map<string, Category>, done: set<string>, t: Tree)
  {
    && done <= index.Keys
    && NoDup(t.roots)
    && (forall id :: id in t.roots <==> id in done && index[id].parentId.None?)
    && t.children.Keys == index.Keys
    && (forall p :: p in t.children ==> NoDup(t.children[p]))
    && (forall p, id :: p in t.children ==> (id in t.children[p] <==> id in done && index[id].parentId == Some(p)))
  }

  /** Moving one id from the ids still to link to the ids linked keeps the
      two apart and their union the same. */
  lemma MoveOne(rest: set<string>, done: set<string>, id: string)
    requires id in rest && rest !! done
    ensures (rest - {id}) !! (done + {id}) && (rest - {id}) + (done + {id}) == rest + done
  {
  }

  /** Once every category is done, the partial tree is linked. */
  lemma PartialComplete(index: map<string, Category>, done: set<string>, t: Tree)
    requires Partial(index, done, t) && done == index.Keys
    ensures Linked(index, t)
  {
  }

  /** A category without a parent, appended to the roots. */
  lemma LinkRoot(index: map<string, Category>, done: set<string>, t: Tree, id: string)
    requires Partial(index, done, t) && id in index && id !in done && index[id].parentId.None?
    ensures Partial(index, done + {id}, t.(roots := t.roots + [id]))
  {
    var roots := t.roots + [id];
    assert id !in t.roots;
    forall i, j | 0 <= i < j < |roots| ensures roots[i] != roots[j] {
      if j == |roots| - 1 {
        assert roots[i] in t.roots;
      }
    }
  }

  /** A category whose parent is present, appended to the parent's
      children. */
  lemma LinkChild(index: map<string, Category>, done: set<string>, t: Tree, id: string)
    requires Partial(index, done, t) && id in index && id !in done
    requires index[id].parentId.Some? && index[id].parentId.value in index
    ensures var p := index[id].parentId.value;
      Partial(index, done + {id}, t.(children := t.children[p := t.children[p] + [id]]))
  {
    var p := index[id].parentId.value;
    var kids := t.children[p] + [id];
    assert id !in t.children[p];
    forall i, j | 0 <= i < j < |kids| ensures kids[i] != kids[j] {
      if j == |kids| - 1 {
        assert kids[i] in t.children[p];
      }
    }
    var u := t.(children := t.children[p := kids]);
    forall q, x | q in u.children
      ensures x in u.children[q] <==> x in done + {id} && index[x].parentId == Some(q)
    {
      if q == p {
        assert x in kids <==> x in t.children[p] || x == id;
      }
    }
  }

  /** A category whose parent is missing is linked nowhere. */
  lemma LinkOrphan(index: map<string, Category>, done: set<string>, t: Tree, id: string)
    requires Partial(index, done, t) && id in index && id !in done
    requires index[id].parentId.Some? && index[id].parentId.value !in index
    ensures Partial(index, done + {id}, t)
  {
  }

  /** `buildTree`: the first loop fills the map by id, the second links each
      node to its parent, or makes it a root. */
  method BuildTree(categories: seq<Category>) returns (t: Tree)
    ensures Linked(Index(categories), t)
  {
    var categoryMap: map<string, Category> := map[];
    for i := 0 to |categories|
      invariant categoryMap == Index(categories[..i])
    {
      assert categories[..i + 1][..i] == categories[..i];
      categoryMap := categoryMap[categories[i].id := categories[i]];
    }
    assert categories[..|categories|] == categories;
    t := LinkNodes(categoryMap);
  }

  /** The second loop of `buildTree`: each node in the map is made a root,
      added to its parent's children, or dropped when the parent is
      missing. */
  method LinkNodes(categoryMap: map<string, Category>) returns (t: Tree)
    ensures Linked(categoryMap, t)
  {
    t := Tree([], map id | id in categoryMap :: []);
    var rest := categoryMap.Keys;
    ghost var done: set<string> := {};
    while rest != {}
      invariant rest !! done && rest + done == categoryMap.Keys
      invariant Partial(categoryMap, done, t)
      decreases |rest|
    {
      var id :| id in rest;
      var node := categoryMap[id];
      if node.parentId.None? {
        LinkRoot(categoryMap, done, t, id);
        t := t.(roots := t.roots + [id]);
      } else if node.parentId.value in categoryMap {
        var p := node.parentId.value;
        LinkChild(categoryMap, done, t, id);
        t := t.(children := t.children[p := t.children[p] + [id]]);
      } else {
        LinkOrphan(categoryMap, done, t, id);
      }
      MoveOne(rest, done, id);
      rest := rest - {id};
      done := done + {id};
    }
    PartialComplete(categoryMap, done, t);
  }

  /** Every category's level is its depth: 0 for a root, one more than its
      parent's when the parent is stored. */
  ghost predicate Leveled(categories: map<string, Category>)
  {
    forall id :: id in categories ==>
      match categories[id].parentId
      case None => categories[id].level == 0
      case Some(p) => p in categories ==> categories[id].level == categories[p].level + 1
  }

  /** The category service over its repository, categories by id. */
  class CategoryService {
    var categories: map<string, Category>

    /** Every category is stored under its own id. */
    ghost predicate Valid()
      reads this
    {
      forall id :: id in categories ==> categories[id].id == id
    }

    constructor(categories: map<string, Category>)
      requires forall id :: id in categories ==> categories[id].id == id
      ensures Valid() && this.categories == categories
    {
      this.categories := categories;
    }

    /** `create`, with `newId` the id the repository generates: level 0
        without a parent, one more than the parent's with one. */
    method Create(newId: string, request: CategoryRequest) returns (r: Result<Category>)
      requires Valid() && newId !in categories
      modifies this
      ensures Valid()
      ensures Leveled(old(categories)) && (forall k :: k in old(categories) ==> old(categories)[k].parentId != Some(newId)) ==>
        Leveled(categories)
      ensures request.parentId.Some? && request.parentId.value !in old(categories) ==>
        r == Err("category-e-01") && categories == old(categories)
      ensures request.parentId.None? ==>
        r == Ok(Category(newId, request.name, None, 0)) && categories == old(categories)[newId := r.value]
      ensures request.parentId.Some? && request.parentId.value in old(categories) ==>
        && r == Ok(Category(newId, request.name, request.parentId, old(categories)[request.parentId.value].level + 1))
        && categories == old(categories)[newId := r.value]
    {
      var category := Category(newId, request.name, request.parentId, 0);
      if request.parentId.Some? {
        if request.parentId.value !in categories {
          return Err("category-e-01");
        }
        var categoryParent := categories[request.parentId.value];
        category := category.(level := categoryParent.level + 1);
      } else {
        category := category.(level := 0);
      }
      categories := categories[newId := category];
      r := Ok(category);
    }

    /** `getTree`: the tree over all stored categories, in the order
        `order` lists their ids. */
    method GetTree(order: seq<string>) returns (t: Tree)
      requires Valid()
      requires NoDup(order) && forall id :: id in order <==> id in categories
      ensures Linked(categories, t)
    {
      var all := InOrder(categories, order);
      t := BuildTree(all);
      IndexInOrder(categories, order);
    }

    /** `update`: the name changes, nothing else. */
    method Update(id: string, name: string) returns (r: Result<Category>)
      requires Valid()
      modifies this
      ensures Valid()
      ensures Leveled(old(categories)) ==> Leveled(categories)
      ensures id !in old(categories) ==> r == Err("category-e-02") && categories == old(categories)
      ensures id in old(categories) ==>
        && r == Ok(old(categories)[id].(name := name))
        && categories == old(categories)[id := old(categories)[id].(name := name)]
    {
      if id !in categories {
        return Err("category-e-02");
      }
      var category := categories[id];
      category := category.(name := name);
      categories := categories[id := category];
      r := Ok(category);
    }

    /** `delete`: the category and its direct children go; grandchildren
        stay, with their parent gone. */
    method Delete(id: string) returns (r: Outcome)
      requires Valid()
      modifies this
      ensures Valid()
      ensures Leveled(old(categories)) ==> Leveled(categories)
      ensures id !in old(categories) ==> r == Fail("category-e-02") && categories == old(categories)
      ensures id in old(categories) ==> r == Done && categories == WithoutFamily(old(categories), id)
    {
      if id !in categories {
        return Fail("category-e-02");
      }
      var childCategory := set k | k in categories && categories[k].parentId == Some(id);
      categories := map k | k in categories && k !in childCategory :: categories[k];
      categories := map k | k in categories && k != id :: categories[k];
      r := Done;
    }
  }

  /** The repository after deleting `id` and its direct children. */
  function WithoutFamily(categories: map<string, Category>, id: string): (r: map<string, Category>)
    ensures forall k :: k in r <==> k in categories && k != id && categories[k].parentId != Some(id)
    ensures forall k :: k in r ==> r[k] == categories[k]
  {
    map k | k in categories && k != id && categories[k].parentId != Some(id) :: categories[k]
  }

  /** Deleting a category keeps its grandchildren, whose parent is then
      missing, so the tree built afterwards shows them nowhere. */
  lemma DeleteOrphansGrandchildren(categories: map<string, Category>, id: string, g: string, t: Tree)
    requires id in categories && g in categories && categories[g].parentId.Some?
    requires var c := categories[g].parentId.value;
      c in categories && c != id && categories[c].parentId == Some(id) && g != id
    requires Linked(WithoutFamily(categories, id), t)
    ensures g in WithoutFamily(categories, id)
    ensures g !in t.roots && forall p :: p in t.children ==> g !in t.children[p]
  {
    var after := WithoutFamily(categories, id);
    var c := categories[g].parentId.value;
    assert c !in after;
    LinkedPlacement(after, t, g);
  }

  /** The map filled from a list holds each listed category unless a later
      one has its id. */
  lemma {:induction false} IndexHolds(categories: seq<Category>, i: int)
    requires 0 <= i < |categories|
    requires forall j :: i < j < |categories| ==> categories[j].id != categories[i].id
    ensures Index(categories)[categories[i].id] == categories[i]
  {
    if i < |categories| - 1 {
      var front := categories[..|categories| - 1];
      assert front[i] == categories[i];
      IndexHolds(front, i);
    }
  }

  /** The stored categories listed in the order `order` gives their ids. */
  function InOrder(categories: map<string, Category>, order: seq<string>): (all: seq<Category>)
    requires forall id :: id in order ==> id in categories
    ensures |all| == |order| && forall i :: 0 <= i < |order| ==> all[i] == categories[order[i]]
  {
    seq(|order|, i requires 0 <= i < |order| => categories[order[i]])
  }

  /** Listing every stored category once and filling the map from the list
      gives back the repository. */
  lemma IndexInOrder(categories: map<string, Category>, order: seq<string>)
    requires forall id :: id in categories ==> categories[id].id == id
    requires NoDup(order) && forall id :: id in order <==> id in categories
    ensures Index(InOrder(categories, order)) == categories
  {
    IndexInOrderValues(categories, order);
    IndexInOrderKeys(categories, order);
  }

  /** Every stored category is in the map filled from the list. */
  lemma IndexInOrderValues(categories: map<string, Category>, order: seq<string>)
    requires forall id :: id in categories ==> categories[id].id == id
    requires NoDup(order) && forall id :: id in order <==> id in categories
    ensures forall id :: id in categories ==>
      id in Index(InOrder(categories, order)) && Index(InOrder(categories, order))[id] == categories[id]
  {
    forall id | id in categories
      ensures id in Index(InOrder(categories, order)) && Index(InOrder(categories, order))[id] == categories[id]
    {
      var i :| 0 <= i < |order| && order[i] == id;
      IndexInOrderAt(categories, order, i);
    }
  }

  /** Every id in the map filled from the list is a stored one. */
  lemma IndexInOrderKeys(categories: map<string, Category>, order: seq<string>)
    requires forall id :: id in categories ==> categories[id].id == id
    requires forall id :: id in order <==> id in categories
    ensures Index(InOrder(categories, order)).Keys <= categories.Keys
  {
    var all := InOrder(categories, order);
    forall c | c in all ensures c.id in categories {
      var i :| 0 <= i < |all| && all[i] == c;
      assert order[i] in categories;
    }
  }

  /** The category listed at position `i` is the one the map keeps. */
  lemma IndexInOrderAt(categories: map<string, Category>, order: seq<string>, i: int)
    requires forall id :: id in categories ==> categories[id].id == id
    requires NoDup(order) && forall id :: id in order <==> id in categories
    requires 0 <= i < |order|
    ensures Index(InOrder(categories, order))[order[i]] == categories[order[i]]
  {
    var all := InOrder(categories, order);
    assert all[i].id == order[i];
    forall j | i < j < |all| ensures all[j].id != all[i].id {
      assert all[j].id == order[j];
    }
    IndexHolds(all, i);
  }
}
