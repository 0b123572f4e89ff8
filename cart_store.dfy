/** The browser-side cart store: the cart lines the page shows, with the
    actions that replace them and the totals computed from them. Numbers
    are integers; a field that is absent or not a number is None. */
module CartStore {
  import opened Common

  /** The product fields the cart reads. */
  datatype ProductInfo = ProductInfo(name: Option<string>, price: Option<int>, thumbnail: Option<string>)

  /** A cart line as the server returns it. */
  datatype CartLine = CartLine(id: string, quantity: Option<int>, product: Option<ProductInfo>)

  /** The fields an update carries; an absent field keeps the line's. */
  datatype LinePatch = LinePatch(id: Option<string>, quantity: Option<int>, product: Option<ProductInfo>)

  /** `{ ...item, ...updates }`. */
  function Merge(item: CartLine, updates: LinePatch): CartLine
  {
    CartLine(if updates.id.Some? then updates.id.value else item.id,
             if updates.quantity.Some? then updates.quantity else item.quantity,
             if updates.product.Some? then updates.product else item.product)
  }

  /** The lines after `updateItem`. */
  function Updated(items: seq<CartLine>, id: string, updates: LinePatch): (r: seq<CartLine>)
    ensures |r| == |items|
    ensures forall k :: 0 <= k < |items| && items[k].id != id ==> r[k] == items[k]
    ensures forall k :: 0 <= k < |items| && items[k].id == id ==> r[k] == Merge(items[k], updates)
  {
    seq(|items|, k requires 0 <= k < |items| => if items[k].id == id then Merge(items[k], updates) else items[k])
  }

  /** The lines after `removeItem`: `filter` keeps, in order, the lines
      whose id differs. */
  function Removed(items: seq<CartLine>, id: string): (r: seq<CartLine>)
    ensures |r| <= |items|
    ensures forall x :: x in r ==> x in items && x.id != id
  {
    if items == [] then []
    else
      var front := Removed(items[..|items| - 1], id);
      var last := items[|items| - 1];
      if last.id != id then front + [last] else front
  }

  /** The lines `removeItem` drops. */
  function Matching(items: seq<CartLine>, id: string): (r: seq<CartLine>)
    ensures forall x :: x in r ==> x in items && x.id == id
  {
    if items == [] then []
    else
      var front := Matching(items[..|items| - 1], id);
      var last := items[|items| - 1];
      if last.id == id then front + [last] else front
  }

  /** What a line adds to `getTotalItems`: its quantity when it is a
      number. */
  function Quantity(item: CartLine): int
  {
    if item.quantity.Some? then item.quantity.value else 0
  }

  /** What a line adds to `getTotalPrice`: price times quantity, when the
      price is a non-zero number and the quantity a number. */
  function Amount(item: CartLine): int
  {
    if item.product.Some? && item.product.value.price.Some? && item.product.value.price.value != 0
       && item.quantity.Some?
    then item.product.value.price.value * item.quantity.value
    else 0
  }

  /** `reduce` of `getTotalItems`, from the left. */
  function TotalQuantity(items: seq<CartLine>): int
  {
    if items == [] then 0 else TotalQuantity(items[..|items| - 1]) + Quantity(items[|items| - 1])
  }

  /** `reduce` of `getTotalPrice`, from the left. */
  function TotalAmount(items: seq<CartLine>): int
  {
    if items == [] then 0 else TotalAmount(items[..|items| - 1]) + Amount(items[|items| - 1])
  }

  /** `find`: the first line with the id. */
  function Find(items: seq<CartLine>, id: string): (r: Option<CartLine>)
    ensures r.Some? ==> r.value in items && r.value.id == id
    ensures r.None? ==> forall k :: 0 <= k < |items| ==> items[k].id != id
  {
    if items == [] then None
    else if items[0].id == id then Some(items[0])
    else Find(items[1..], id)
  }

  /** `find` returns the line at the first index holding the id. */
  lemma {:induction false} FindIsFirst(items: seq<CartLine>, id: string, k: int)
    requires 0 <= k < |items| && items[k].id == id
    requires forall j :: 0 <= j < k ==> items[j].id != id
    ensures Find(items, id) == Some(items[k])
  {
    if k > 0 {
      FindIsFirst(items[1..], id, k - 1);
    }
  }

  /** Appending a line changes what `find` returns only when no earlier
      line had the id. */
  lemma {:induction false} FindAfterAppend(items: seq<CartLine>, item: CartLine, id: string)
    ensures Find(items + [item], id) ==
      if Find(items, id).Some? then Find(items, id) else if item.id == id then Some(item) else None
  {
    if items != [] {
      assert (items + [item])[1..] == items[1..] + [item];
      FindAfterAppend(items[1..], item, id);
    }
  }

  /** Both totals add up over a concatenation. */
  lemma {:induction false} TotalsAppend(a: seq<CartLine>, b: seq<CartLine>)
    ensures TotalQuantity(a + b) == TotalQuantity(a) + TotalQuantity(b)
    ensures TotalAmount(a + b) == TotalAmount(a) + TotalAmount(b)
    decreases |b|
  {
    if b == [] {
      assert a + b == a;
    } else {
      var front := b[..|b| - 1];
      assert (a + b)[..|a + b| - 1] == a + front;
      TotalsAppend(a, front);
    }
  }

  /** Removing an id splits the lines in two: the totals of the lines kept
      and of the lines dropped add up to the old totals, and removing twice
      is removing once. */
  lemma {:induction false} RemoveSplits(items: seq<CartLine>, id: string)
    ensures TotalQuantity(items) == TotalQuantity(Removed(items, id)) + TotalQuantity(Matching(items, id))
    ensures TotalAmount(items) == TotalAmount(Removed(items, id)) + TotalAmount(Matching(items, id))
    ensures Removed(Removed(items, id), id) == Removed(items, id)
    ensures |Removed(items, id)| + |Matching(items, id)| == |items|
  {
    if items != [] {
      var front := items[..|items| - 1];
      var last := items[|items| - 1];
      RemoveSplits(front, id);
      TotalsAppend(Removed(front, id), [last]);
      TotalsAppend(Matching(front, id), [last]);
      assert [last][..0] == [];
      if last.id != id {
        assert (Removed(front, id) + [last])[..|Removed(front, id)|] == Removed(front, id);
      }
    }
  }

  /** Removing keeps the other lines in their order: it distributes over
      concatenation, and a line without the id is kept. */
  lemma {:induction false} RemoveKeepsOrder(a: seq<CartLine>, b: seq<CartLine>, id: string)
    ensures Removed(a + b, id) == Removed(a, id) + Removed(b, id)
    decreases |b|
  {
    if b == [] {
      assert a + b == a;
    } else {
      var front := b[..|b| - 1];
      assert (a + b)[..|a + b| - 1] == a + front;
      RemoveKeepsOrder(a, front, id);
    }
  }

  /** The cart store's state. */
  class CartStore {
    var items: seq<CartLine>
    var isLoading: bool
    var error: Option<string>

    constructor()
      ensures items == [] && !isLoading && error == None
    {
      items := [];
      isLoading := false;
      error := None;
    }

    /** `setItems`. */
    method SetItems(newItems: seq<CartLine>)
      modifies this
      ensures items == newItems && error == None && isLoading == old(isLoading)
    {
      items := newItems;
      error := None;
    }

    /** `addItem`: the line goes at the end. */
    method AddItem(item: CartLine)
      modifies this
      ensures items == old(items) + [item] && error == None && isLoading == old(isLoading)
      ensures TotalItems() == old(TotalItems()) + Quantity(item)
      ensures TotalPrice() == old(TotalPrice()) + Amount(item)
    {
      items := items + [item];
      error := None;
    }

    /** `updateItem`. */
    method UpdateItem(id: string, updates: LinePatch)
      modifies this
      ensures items == Updated(old(items), id, updates) && error == None && isLoading == old(isLoading)
    {
      items := Updated(items, id, updates);
      error := None;
    }

    /** `removeItem`. */
    method RemoveItem(id: string)
      modifies this
      ensures items == Removed(old(items), id) && error == None && isLoading == old(isLoading)
      ensures TotalItems() == old(TotalItems()) - TotalQuantity(Matching(old(items), id))
      ensures ItemById(id) == None
    {
      RemoveSplits(items, id);
      items := Removed(items, id);
      error := None;
    }

    /** `clearCart`. */
    method ClearCart()
      modifies this
      ensures items == [] && error == None && isLoading == old(isLoading)
      ensures TotalItems() == 0 && TotalPrice() == 0
    {
      items := [];
      error := None;
    }

    /** `setLoading`. */
    method SetLoading(loading: bool)
      modifies this
      ensures isLoading == loading && items == old(items) && error == old(error)
    {
      isLoading := loading;
    }

    /** `setError`. */
    method SetError(e: Option<string>)
      modifies this
      ensures error == e && items == old(items) && isLoading == old(isLoading)
    {
      error := e;
    }

    /** `getTotalItems`. */
    function TotalItems(): int
      reads this
    {
      TotalQuantity(items)
    }

    /** `getTotalPrice`. */
    function TotalPrice(): int
      reads this
    {
      TotalAmount(items)
    }

    /** `getItemById`. */
    function ItemById(id: string): Option<CartLine>
      reads this
    {
      Find(items, id)
    }
  }
}
