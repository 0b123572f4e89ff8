/** The order service: placing an order from cart items (clamping each line to
    the stock left, reserving that stock, summing the totals and consuming the
    cart items) and the consumer's and the farmer's status changes with their
    side effects on the inventory ledger. */
module OrderService {
  import opened Common
  import opened Catalog
  import opened OrderEntity

  /** Who asks for a status change: the buyer or the selling farmer. */
  datatype Actor = Consumer | Farmer

  /** The status changes each endpoint accepts, as a table. Cancelling is
      refused only from RECEIVED, so an order already CANCELED may be
      cancelled again. */
  predicate Transition(actor: Actor, from: OrderStatus, to: OrderStatus)
  {
    match actor
    case Consumer =>
      (to == OrderStatus.CANCELED && from != OrderStatus.RECEIVED)
      || (to == OrderStatus.RECEIVED && from == OrderStatus.DELIVERED)
    case Farmer =>
      (to == OrderStatus.CONFIRMED && from == OrderStatus.PENDING)
      || (to == OrderStatus.DELIVERING && from == OrderStatus.CONFIRMED)
      || (to == OrderStatus.DELIVERED && from == OrderStatus.DELIVERING)
      || (to == OrderStatus.CANCELED && from != OrderStatus.RECEIVED)
  }

  /** The error an endpoint's checks raise, in the order they run; `None` when
      the change passes them. */
  function Guard(actor: Actor, from: OrderStatus, to: OrderStatus): (r: Option<string>)
    ensures r == None <==> Transition(actor, from, to)
    ensures (actor == Consumer && to != OrderStatus.CANCELED && to != OrderStatus.RECEIVED)
              ==> r == Some("order-e-02")
    ensures (actor == Farmer && (to == OrderStatus.PENDING || to == OrderStatus.RECEIVED))
              ==> r == Some("order-e-02")
  {
    match actor
    case Consumer =>
      if to != OrderStatus.CANCELED && to != OrderStatus.RECEIVED then Some("order-e-02")
      else if to == OrderStatus.CANCELED && from == OrderStatus.RECEIVED then Some("order-e-05")
      else if to == OrderStatus.RECEIVED && from != OrderStatus.DELIVERED then Some("order-e-06")
      else None
    case Farmer =>
      if to !in {OrderStatus.CONFIRMED, OrderStatus.DELIVERING, OrderStatus.DELIVERED, OrderStatus.CANCELED} then
        Some("order-e-02")
      else if to == OrderStatus.CONFIRMED && from != OrderStatus.PENDING then Some("order-e-03")
      else if to == OrderStatus.DELIVERING && from != OrderStatus.CONFIRMED then Some("order-e-04")
      else if to == OrderStatus.DELIVERED && from != OrderStatus.DELIVERING then Some("order-e-05")
      else if to == OrderStatus.CANCELED && from == OrderStatus.RECEIVED then Some("order-e-06")
      else None
  }

  predicate Allowed(actor: Actor, from: OrderStatus, to: OrderStatus)
  {
    Guard(actor, from, to) == None
  }

  /** No endpoint moves an order out of RECEIVED. */
  lemma ReceivedIsFinal(actor: Actor, to: OrderStatus)
    ensures !Allowed(actor, OrderStatus.RECEIVED, to)
  {
  }

  /** A freshly persisted order can only be cancelled by its buyer, and only
      confirmed or cancelled by its farmer. */
  lemma NewOrderMoves(o: Order, to: OrderStatus)
    requires o == Persisted(o.note, o.addressId, o.accountId, o.farmerId, o.paymentMethod, o.createdAt)
    ensures Allowed(Consumer, o.status, to) <==> to == OrderStatus.CANCELED
    ensures Allowed(Farmer, o.status, to) <==> to == OrderStatus.CONFIRMED || to == OrderStatus.CANCELED
  {
  }

  // ---------------------------------------------------------------------------
  // The inventory ledger

  predicate LinesIn(lines: seq<OrderLine>, ps: map<string, Product>)
  {
    forall i :: 0 <= i < |lines| ==> lines[i].productId in ps
  }

  /** The total quantity of `pid` in a list of order lines. */
  function QtyOf(lines: seq<OrderLine>, pid: string): int
  {
    if lines == [] then 0
    else (if lines[0].productId == pid then lines[0].quantity else 0) + QtyOf(lines[1..], pid)
  }

  lemma {:induction false} QtyOfAppend(s: seq<OrderLine>, t: seq<OrderLine>, pid: string)
    ensures QtyOf(s + t, pid) == QtyOf(s, pid) + QtyOf(t, pid)
  {
    if s == [] {
      assert s + t == t;
    } else {
      assert (s + t)[1..] == s[1..] + t;
      QtyOfAppend(s[1..], t, pid);
    }
  }

  /** The sum of the line quantities. */
  function SumQty(lines: seq<OrderLine>): int
  {
    if lines == [] then 0 else SumQty(lines[..|lines| - 1]) + lines[|lines| - 1].quantity
  }

  /** The sum of unit price times quantity, the prices read from `ps`. */
  function SumPrice(lines: seq<OrderLine>, ps: map<string, Product>): int
    requires LinesIn(lines, ps)
  {
    if lines == [] then 0
    else
      var last := lines[|lines| - 1];
      SumPrice(lines[..|lines| - 1], ps) + ps[last.productId].price * last.quantity
  }

  /** Puts the quantities of `lines` back into stock, one line at a time. */
  function Restock(ps: map<string, Product>, lines: seq<OrderLine>): (r: map<string, Product>)
    requires LinesIn(lines, ps)
    ensures r.Keys == ps.Keys
    decreases |lines|
  {
    if lines == [] then ps
    else
      var pid := lines[0].productId;
      Restock(ps[pid := ps[pid].(inventory := ps[pid].inventory + lines[0].quantity)], lines[1..])
  }

  /** Adds the quantities of `lines` to the products' sold counters. */
  function AddSold(ps: map<string, Product>, lines: seq<OrderLine>): (r: map<string, Product>)
    requires LinesIn(lines, ps)
    ensures r.Keys == ps.Keys
    decreases |lines|
  {
    if lines == [] then ps
    else
      var pid := lines[0].productId;
      AddSold(ps[pid := ps[pid].(sold := ps[pid].sold + lines[0].quantity)], lines[1..])
  }

  /** Restocking raises a product's inventory by exactly its quantity in the
      lines and changes nothing else about it. */
  lemma {:induction false} RestockAt(ps: map<string, Product>, lines: seq<OrderLine>, pid: string)
    requires LinesIn(lines, ps) && pid in ps
    ensures Restock(ps, lines)[pid] == ps[pid].(inventory := ps[pid].inventory + QtyOf(lines, pid))
    decreases |lines|
  {
    if lines != [] {
      var pid0 := lines[0].productId;
      var ps' := ps[pid0 := ps[pid0].(inventory := ps[pid0].inventory + lines[0].quantity)];
      RestockAt(ps', lines[1..], pid);
    }
  }

  /** Recording a receipt raises a product's sold counter by exactly its
      quantity in the lines and changes nothing else about it. */
  lemma {:induction false} AddSoldAt(ps: map<string, Product>, lines: seq<OrderLine>, pid: string)
    requires LinesIn(lines, ps) && pid in ps
    ensures AddSold(ps, lines)[pid] == ps[pid].(sold := ps[pid].sold + QtyOf(lines, pid))
    decreases |lines|
  {
    if lines != [] {
      var pid0 := lines[0].productId;
      var ps' := ps[pid0 := ps[pid0].(sold := ps[pid0].sold + lines[0].quantity)];
      AddSoldAt(ps', lines[1..], pid);
    }
  }

  /** The two ledgers over every product. */
  lemma Ledgers(ps: map<string, Product>, lines: seq<OrderLine>)
    requires LinesIn(lines, ps)
    ensures forall pid :: pid in ps ==>
      Restock(ps, lines)[pid] == ps[pid].(inventory := ps[pid].inventory + QtyOf(lines, pid))
    ensures forall pid :: pid in ps ==>
      AddSold(ps, lines)[pid] == ps[pid].(sold := ps[pid].sold + QtyOf(lines, pid))
  {
    forall pid | pid in ps
      ensures Restock(ps, lines)[pid] == ps[pid].(inventory := ps[pid].inventory + QtyOf(lines, pid))
      ensures AddSold(ps, lines)[pid] == ps[pid].(sold := ps[pid].sold + QtyOf(lines, pid))
    {
      RestockAt(ps, lines, pid);
      AddSoldAt(ps, lines, pid);
    }
  }

  // ---------------------------------------------------------------------------
  // Placing an order

  /** The state the order-creation loop threads through: the products, the
      cart items and the order lines built so far. */
  datatype Ledger = Ledger(products: map<string, Product>, cart: map<string, CartItem>, lines: seq<OrderLine>)

  /** Every cart item refers to a stored product. */
  predicate CartIn(l: Ledger)
  {
    forall id :: id in l.cart ==> l.cart[id].productId in l.products
  }

  /** The lower of two integers. */
  function Min(a: int, b: int): int
  {
    if a <= b then a else b
  }

  /** One turn of the order-creation loop for cart item `id`: its quantity is
      capped at the product's inventory, that much is taken out of stock, an
      order line is added and the cart item is deleted. */
  function Step(l: Ledger, id: string): (r: Ledger)
    requires CartIn(l) && id in l.cart
    ensures CartIn(r) && r.products.Keys == l.products.Keys && r.cart == l.cart - {id}
    ensures |r.lines| == |l.lines| + 1 && r.lines[..|l.lines|] == l.lines
  {
    var c := l.cart[id];
    var p := l.products[c.productId];
    var q := if c.quantity > p.inventory then p.inventory else c.quantity;
    var r := Ledger(l.products[c.productId := p.(inventory := p.inventory - q)],
                    l.cart - {id},
                    l.lines + [OrderLine(c.productId, q)]);
    assert r.lines[..|l.lines|] == l.lines;
    r
  }

  /** The order-creation loop from cart item `ids[0]` on. Each cart item must
      still exist, so a repeated id finds its item already deleted. */
  function Reserve(l: Ledger, ids: seq<string>): (r: Result<Ledger>)
    requires CartIn(l)
    ensures r.Ok? ==> CartIn(r.value) && r.value.products.Keys == l.products.Keys
    ensures r.Ok? ==> |r.value.lines| == |l.lines| + |ids| && r.value.lines[..|l.lines|] == l.lines
    ensures r.Ok? && LinesIn(l.lines, l.products) ==> LinesIn(r.value.lines, r.value.products)
    decreases |ids|
  {
    if ids == [] then Ok(l)
    else if ids[0] !in l.cart then Err("cart-item-e-01")
    else
      var l' := Step(l, ids[0]);
      var r := Reserve(l', ids[1..]);
      if r.Ok? then
        assert r.value.lines[..|l.lines|] == r.value.lines[..|l'.lines|][..|l.lines|];
        assert LinesIn(l.lines, l.products) ==> LinesIn(l'.lines, l'.products) by {
          if LinesIn(l.lines, l.products) {
            forall i | 0 <= i < |l'.lines| ensures l'.lines[i].productId in l'.products {
              if i < |l.lines| { assert l'.lines[i] == l'.lines[..|l.lines|][i]; }
            }
          }
        }
        r
      else r
  }

  /** The set of elements of a sequence of ids. */
  function Elems(ids: seq<string>): set<string>
  {
    set i | 0 <= i < |ids| :: ids[i]
  }

  /** A successful reservation consumed exactly the requested cart items, and
      they were all distinct. */
  lemma {:induction false} ReserveConsumes(l: Ledger, ids: seq<string>)
    requires CartIn(l) && Reserve(l, ids).Ok?
    ensures forall i :: 0 <= i < |ids| ==> ids[i] in l.cart
    ensures forall i, j :: 0 <= i < j < |ids| ==> ids[i] != ids[j]
    ensures Reserve(l, ids).value.cart == l.cart - Elems(ids)
    decreases |ids|
  {
    if ids != [] {
      var l' := Step(l, ids[0]);
      ReserveConsumes(l', ids[1..]);
      forall i, j | 0 <= i < j < |ids| ensures ids[i] != ids[j] {
        assert ids[j] == ids[1..][j - 1];
        if i > 0 { assert ids[i] == ids[1..][i - 1]; }
      }
      forall i | 0 < i < |ids| ensures ids[i] in l.cart {
        assert ids[i] == ids[1..][i - 1];
      }
      assert Elems(ids) == {ids[0]} + Elems(ids[1..]) by {
        forall x | x in Elems(ids) ensures x in {ids[0]} + Elems(ids[1..]) {
          var i :| 0 <= i < |ids| && ids[i] == x;
          if i > 0 { assert ids[1..][i - 1] == x; }
        }
      }
    }
  }

  /** A successful reservation adds one line per requested cart item, for that
      item's product and with at most the item's quantity. */
  lemma {:induction false} ReserveLines(l: Ledger, ids: seq<string>)
    requires CartIn(l) && Reserve(l, ids).Ok?
    ensures forall i :: 0 <= i < |ids| ==> ids[i] in l.cart
    ensures var r := Reserve(l, ids).value;
      forall i :: 0 <= i < |ids| ==>
        && r.lines[|l.lines| + i].productId == l.cart[ids[i]].productId
        && r.lines[|l.lines| + i].quantity <= l.cart[ids[i]].quantity
    decreases |ids|
  {
    ReserveConsumes(l, ids);
    if ids != [] {
      var l' := Step(l, ids[0]);
      ReserveLines(l', ids[1..]);
      var r := Reserve(l, ids).value;
      assert r.lines[|l.lines|] == r.lines[..|l'.lines|][|l.lines|];
      forall i | 0 < i < |ids|
        ensures r.lines[|l.lines| + i].productId == l.cart[ids[i]].productId
        ensures r.lines[|l.lines| + i].quantity <= l.cart[ids[i]].quantity
      {
        assert ids[i] == ids[1..][i - 1];
        assert |l'.lines| + (i - 1) == |l.lines| + i;
      }
    }
  }

  /** A reservation changes only the inventories of the products. */
  lemma {:induction false} ReserveKeepsFields(l: Ledger, ids: seq<string>)
    requires CartIn(l) && Reserve(l, ids).Ok?
    ensures var r := Reserve(l, ids).value;
      forall pid :: pid in l.products ==>
        r.products[pid] == l.products[pid].(inventory := r.products[pid].inventory)
    decreases |ids|
  {
    if ids != [] {
      var l' := Step(l, ids[0]);
      ReserveKeepsFields(l', ids[1..]);
      var r := Reserve(l', ids[1..]).value;
      assert Reserve(l, ids).value == r;
      forall pid | pid in l.products
        ensures r.products[pid] == l.products[pid].(inventory := r.products[pid].inventory)
      {
        assert l'.products[pid] == l.products[pid].(inventory := l'.products[pid].inventory);
      }
    }
  }

  /** Stock is conserved: for every product, inventory plus the quantity held
      in order lines is the same before and after the reservation. */
  lemma {:induction false} ReserveConserves(l: Ledger, ids: seq<string>)
    requires CartIn(l) && Reserve(l, ids).Ok?
    ensures var r := Reserve(l, ids).value;
      forall pid :: pid in l.products ==>
        r.products[pid].inventory + QtyOf(r.lines, pid) == l.products[pid].inventory + QtyOf(l.lines, pid)
    decreases |ids|
  {
    if ids != [] {
      var l' := Step(l, ids[0]);
      ReserveConserves(l', ids[1..]);
      var line := l'.lines[|l.lines|];
      assert l'.lines == l.lines + [line] by {
        assert l'.lines == l'.lines[..|l.lines|] + [line];
      }
      forall pid | pid in l.products
        ensures l'.products[pid].inventory + QtyOf(l'.lines, pid) == l.products[pid].inventory + QtyOf(l.lines, pid)
      {
        QtyOfAppend(l.lines, [line], pid);
        assert QtyOf([line], pid) == (if line.productId == pid then line.quantity else 0) + QtyOf([], pid);
      }
    }
  }

  /** With no negative cart quantity and no negative inventory to start with,
      the cap keeps every inventory and every line quantity non-negative. */
  lemma {:induction false} ReserveNonNegative(l: Ledger, ids: seq<string>)
    requires CartIn(l) && Reserve(l, ids).Ok?
    requires forall id :: id in l.cart ==> l.cart[id].quantity >= 0
    requires forall pid :: pid in l.products ==> l.products[pid].inventory >= 0
    requires forall i :: 0 <= i < |l.lines| ==> l.lines[i].quantity >= 0
    ensures var r := Reserve(l, ids).value;
      && (forall pid :: pid in r.products ==> r.products[pid].inventory >= 0)
      && (forall i :: 0 <= i < |r.lines| ==> r.lines[i].quantity >= 0)
    decreases |ids|
  {
    if ids != [] {
      var l' := Step(l, ids[0]);
      forall i | 0 <= i < |l'.lines| ensures l'.lines[i].quantity >= 0 {
        if i < |l.lines| { assert l'.lines[i] == l'.lines[..|l.lines|][i]; }
      }
      ReserveNonNegative(l', ids[1..]);
    }
  }

  /** A product none of the requested cart items refers to keeps its inventory. */
  lemma {:induction false} ReserveUntouched(l: Ledger, ids: seq<string>, pid: string)
    requires CartIn(l) && Reserve(l, ids).Ok? && pid in l.products
    requires forall k :: 0 <= k < |ids| && ids[k] in l.cart ==> l.cart[ids[k]].productId != pid
    ensures Reserve(l, ids).value.products[pid] == l.products[pid]
    decreases |ids|
  {
    if ids != [] {
      var l' := Step(l, ids[0]);
      forall k | 0 <= k < |ids[1..]| && ids[1..][k] in l'.cart
        ensures l'.cart[ids[1..][k]].productId != pid
      {
        assert ids[1..][k] == ids[k + 1];
      }
      ReserveUntouched(l', ids[1..], pid);
    }
  }

  /** When the requested cart items are for pairwise different products, each
      line's quantity is the cart quantity capped at the product's inventory
      before the order, and that inventory drops by exactly that amount. */
  lemma {:induction false} ReserveClamp(l: Ledger, ids: seq<string>, i: int)
    requires CartIn(l) && Reserve(l, ids).Ok? && 0 <= i < |ids|
    requires forall j, k :: 0 <= j < k < |ids| && ids[j] in l.cart && ids[k] in l.cart ==>
               l.cart[ids[j]].productId != l.cart[ids[k]].productId
    ensures ids[i] in l.cart
    ensures var r := Reserve(l, ids).value;
      var c := l.cart[ids[i]];
      var q := Min(c.quantity, l.products[c.productId].inventory);
      && r.lines[|l.lines| + i].quantity == q
      && r.products[c.productId].inventory == l.products[c.productId].inventory - q
    decreases |ids|
  {
    ReserveConsumes(l, ids);
    var l' := Step(l, ids[0]);
    var r := Reserve(l, ids).value;
    var c0 := l.cart[ids[0]];
    if i == 0 {
      assert r.lines[|l.lines|] == r.lines[..|l'.lines|][|l.lines|];
      forall k | 0 <= k < |ids[1..]| && ids[1..][k] in l'.cart
        ensures l'.cart[ids[1..][k]].productId != c0.productId
      {
        assert ids[1..][k] == ids[k + 1];
      }
      ReserveUntouched(l', ids[1..], c0.productId);
    } else {
      forall j, k | 0 <= j < k < |ids[1..]| && ids[1..][j] in l'.cart && ids[1..][k] in l'.cart
        ensures l'.cart[ids[1..][j]].productId != l'.cart[ids[1..][k]].productId
      {
        assert ids[1..][j] == ids[j + 1] && ids[1..][k] == ids[k + 1];
      }
      assert ids[1..][i - 1] == ids[i];
      ReserveClamp(l', ids[1..], i - 1);
      assert |l'.lines| + (i - 1) == |l.lines| + i;
      assert l.cart[ids[0]].productId != l.cart[ids[i]].productId;
    }
  }

  /** `Reserve` takes its first step on a cart item that exists. */
  lemma ReserveStep(l: Ledger, ids: seq<string>)
    requires CartIn(l) && ids != [] && ids[0] in l.cart
    ensures Reserve(l, ids) == Reserve(Step(l, ids[0]), ids[1..])
  {
  }

  /** Appending a line adds its quantity and its price to the two totals. */
  lemma SumsSnoc(lines: seq<OrderLine>, line: OrderLine, ps: map<string, Product>)
    requires LinesIn(lines, ps) && line.productId in ps
    ensures LinesIn(lines + [line], ps)
    ensures SumQty(lines + [line]) == SumQty(lines) + line.quantity
    ensures SumPrice(lines + [line], ps) == SumPrice(lines, ps) + ps[line.productId].price * line.quantity
  {
    assert (lines + [line])[..|lines|] == lines;
  }

  /** Two product maps with the same products at the same prices. */
  predicate SamePrices(ps: map<string, Product>, products: map<string, Product>)
  {
    ps.Keys == products.Keys && forall pid :: pid in ps ==> ps[pid].price == products[pid].price
  }

  /** One step of the reservation keeps the prices, keeps every line's
      product known, and adds the new line to both totals. */
  lemma StepTotals(l: Ledger, id: string, products: map<string, Product>)
    requires CartIn(l) && id in l.cart
    requires SamePrices(l.products, products) && LinesIn(l.lines, products)
    ensures var n := Step(l, id);
      var line := n.lines[|l.lines|];
      && line.productId == l.cart[id].productId
      && SamePrices(n.products, products) && LinesIn(n.lines, products)
      && SumQty(n.lines) == SumQty(l.lines) + line.quantity
      && SumPrice(n.lines, products) == SumPrice(l.lines, products) + products[line.productId].price * line.quantity
  {
    var n := Step(l, id);
    var c := l.cart[id];
    var p := l.products[c.productId];
    var q := if c.quantity > p.inventory then p.inventory else c.quantity;
    assert n.lines == l.lines + [OrderLine(c.productId, q)];
    SumsSnoc(l.lines, OrderLine(c.productId, q), products);
  }

  /** The loop of order creation over the requested cart items. It works on
      copies of the product and cart-item maps, which the caller commits only
      when every item was found (the transaction rolls back otherwise), and
      accumulates the two totals. */
  method ReserveCartItems(products: map<string, Product>, cartItems: map<string, CartItem>,
                          cartItemIds: seq<string>)
    returns (r: Result<Ledger>, totalQuantity: int, totalPrice: int)
    requires CartIn(Ledger(products, cartItems, []))
    ensures r == Reserve(Ledger(products, cartItems, []), cartItemIds)
    ensures r.Ok? ==> LinesIn(r.value.lines, products)
    ensures r.Ok? ==> totalQuantity == SumQty(r.value.lines)
    ensures r.Ok? ==> totalPrice == SumPrice(r.value.lines, products)
  {
    totalQuantity := 0;
    totalPrice := 0;
    var ps := products;
    var cs := cartItems;
    var lines: seq<OrderLine> := [];
    ghost var l0 := Ledger(products, cartItems, []);
    for i := 0 to |cartItemIds|
      invariant CartIn(Ledger(ps, cs, lines))
      invariant Reserve(l0, cartItemIds) == Reserve(Ledger(ps, cs, lines), cartItemIds[i..])
      invariant SamePrices(ps, products)
      invariant LinesIn(lines, products)
      invariant totalQuantity == SumQty(lines) && totalPrice == SumPrice(lines, products)
    {
      var id := cartItemIds[i];
      if id !in cs { return Err("cart-item-e-01"), totalQuantity, totalPrice; }
      ghost var before := Ledger(ps, cs, lines);
      ReserveStep(before, cartItemIds[i..]);
      assert cartItemIds[i..][1..] == cartItemIds[i + 1..];
      var item := cs[id];
      var product := ps[item.productId];
      var q := item.quantity;
      if q > product.inventory {
        q := product.inventory;
      }
      ps := ps[item.productId := product.(inventory := product.inventory - q)];
      totalQuantity := totalQuantity + q;
      totalPrice := totalPrice + product.price * q;
      lines := lines + [OrderLine(item.productId, q)];
      cs := cs - {id};
      assert Ledger(ps, cs, lines) == Step(before, id);
      StepTotals(before, id, products);
    }
    assert cartItemIds[|cartItemIds|..] == [];
    r := Ok(Ledger(ps, cs, lines));
  }

  /** No two lines are for the same product. An order item's key is the pair
      (order id, product id), so an order stores at most one line per
      product. */
  predicate DistinctProducts(lines: seq<OrderLine>)
  {
    forall i, j :: 0 <= i < j < |lines| ==> lines[i].productId != lines[j].productId
  }

  /** A placed order together with the ledger after it. */
  datatype Placed = Placed(order: Order, ledger: Ledger)

  /** Order creation as a whole: the address, the farmer and the caller's
      account are looked up, the payment method is checked, and only then are
      the cart items reserved; any failure rolls the whole transaction back.
      Two lines for one product share an order item key, which the final
      save of the order refuses (the merge of two copies of one entity throws
      IllegalStateException), so the transaction rolls back then too. */
  function PlaceOrder(products: map<string, Product>, cart: map<string, CartItem>,
                      addresses: set<string>, farmers: set<string>,
                      addressId: string, farmerId: string, account: Result<string>,
                      paymentMethod: PaymentMethod, note: Option<string>,
                      cartItemIds: seq<string>, now: int): (r: Result<Placed>)
    requires CartIn(Ledger(products, cart, []))
    ensures addressId !in addresses ==> r == Err("address-e-01")
    ensures addressId in addresses && farmerId !in farmers ==> r == Err("farmer-e-01")
    ensures addressId in addresses && farmerId in farmers && account.Err? ==> r == Err(account.code)
    ensures addressId in addresses && farmerId in farmers && account.Ok?
            && paymentMethod != COD && paymentMethod != VNPAY
            ==> r == Err("order-e-01")
    ensures paymentMethod != COD && paymentMethod != VNPAY ==> r.Err?
    ensures r.Ok? ==> addressId in addresses && farmerId in farmers && account.Ok?
    ensures r.Ok? ==>
      var o := r.value.order;
      && o.status == OrderStatus.PENDING && o.paymentStatus == PaymentStatus.PENDING
      && o.accountId == account.value && o.farmerId == farmerId && o.addressId == addressId
      && o.items == r.value.ledger.lines
      && o.totalQuantity == Some(SumQty(o.items))
      && LinesIn(o.items, products)
      && o.totalPrice == Some(SumPrice(o.items, products))
      && DistinctProducts(o.items)
  {
    if addressId !in addresses then Err("address-e-01")
    else if farmerId !in farmers then Err("farmer-e-01")
    else if account.Err? then Err(account.code)
    else if paymentMethod != COD && paymentMethod != VNPAY then Err("order-e-01")
    else
      var l0 := Ledger(products, cart, []);
      match Reserve(l0, cartItemIds)
      case Err(e) => Err(e)
      case Ok(l) =>
        if !DistinctProducts(l.lines) then Err("IllegalStateException")
        else
          var o := Persisted(note, addressId, account.value, farmerId, paymentMethod, now);
          Ok(Placed(o.(totalPrice := Some(SumPrice(l.lines, products)),
                       totalQuantity := Some(SumQty(l.lines)),
                       items := l.lines), l))
  }

  /** A placed order has one line per requested cart item, each for a
      different product, with the cart quantity capped at the product's
      inventory before the order; that inventory drops by exactly the line's
      quantity. */
  lemma PlacedLines(products: map<string, Product>, cart: map<string, CartItem>,
                    addresses: set<string>, farmers: set<string>,
                    addressId: string, farmerId: string, account: Result<string>,
                    paymentMethod: PaymentMethod, note: Option<string>,
                    cartItemIds: seq<string>, now: int, i: int)
    requires CartIn(Ledger(products, cart, []))
    requires PlaceOrder(products, cart, addresses, farmers, addressId, farmerId, account,
                        paymentMethod, note, cartItemIds, now).Ok?
    requires 0 <= i < |cartItemIds|
    ensures forall j :: 0 <= j < |cartItemIds| ==> cartItemIds[j] in cart
    ensures forall j :: 0 <= j < |cartItemIds| && j != i ==>
      cart[cartItemIds[j]].productId != cart[cartItemIds[i]].productId
    ensures var p := PlaceOrder(products, cart, addresses, farmers, addressId, farmerId, account,
                                paymentMethod, note, cartItemIds, now).value;
      var c := cart[cartItemIds[i]];
      var q := Min(c.quantity, products[c.productId].inventory);
      && |p.order.items| == |cartItemIds|
      && p.order.items[i] == OrderLine(c.productId, q)
      && p.ledger.products[c.productId].inventory == products[c.productId].inventory - q
  {
    var l0 := Ledger(products, cart, []);
    var l := Reserve(l0, cartItemIds).value;
    ReserveLines(l0, cartItemIds);
    assert forall j :: 0 <= j < |cartItemIds| ==> l.lines[j].productId == cart[cartItemIds[j]].productId by {
      forall j | 0 <= j < |cartItemIds| ensures l.lines[j].productId == cart[cartItemIds[j]].productId {
        assert l.lines[|l0.lines| + j] == l.lines[j];
      }
    }
    assert DistinctProducts(l.lines);
    ReserveClamp(l0, cartItemIds, i);
    assert l.lines[|l0.lines| + i] == l.lines[i];
  }

  /** A request naming two cart items of one product never places an order. */
  lemma SameProductTwiceFails(products: map<string, Product>, cart: map<string, CartItem>,
                              addresses: set<string>, farmers: set<string>,
                              addressId: string, farmerId: string, account: Result<string>,
                              paymentMethod: PaymentMethod, note: Option<string>,
                              cartItemIds: seq<string>, now: int, i: int, j: int)
    requires CartIn(Ledger(products, cart, []))
    requires 0 <= i < j < |cartItemIds| && cartItemIds[i] in cart && cartItemIds[j] in cart
    requires cart[cartItemIds[i]].productId == cart[cartItemIds[j]].productId
    ensures PlaceOrder(products, cart, addresses, farmers, addressId, farmerId, account,
                       paymentMethod, note, cartItemIds, now).Err?
  {
    if PlaceOrder(products, cart, addresses, farmers, addressId, farmerId, account,
                  paymentMethod, note, cartItemIds, now).Ok? {
      PlacedLines(products, cart, addresses, farmers, addressId, farmerId, account,
                  paymentMethod, note, cartItemIds, now, i);
    }
  }

  // ---------------------------------------------------------------------------
  // Status changes

  /** A product map and an order after a status change. */
  datatype Change = Change(products: map<string, Product>, order: Order)

  /** The outcome of asking to move order `o` to `to`: the guard's error, or
      the side effects (restock on CANCELED, sold counters on RECEIVED, payment
      status CANCELED or PAID) with the new status and, when one is given, the
      new reason. */
  function ChangeStatus(actor: Actor, ps: map<string, Product>, o: Order, to: OrderStatus,
                        reason: Option<string>): (r: Result<Change>)
    requires LinesIn(o.items, ps)
    ensures r.Err? <==> !Transition(actor, o.status, to)
    ensures r.Err? ==> Guard(actor, o.status, to) == Some(r.code)
    ensures r.Ok? ==>
      && r.value.products.Keys == ps.Keys
      && r.value.order.status == to
      && r.value.order.items == o.items
      && r.value.order.lastStatusChangeReason == (if reason.Some? then reason.value else o.lastStatusChangeReason)
  {
    match Guard(actor, o.status, to)
    case Some(code) => Err(code)
    case None =>
      var ps' := if to == OrderStatus.CANCELED then Restock(ps, o.items)
                 else if to == OrderStatus.RECEIVED then AddSold(ps, o.items)
                 else ps;
      var pay := if to == OrderStatus.CANCELED then PaymentStatus.CANCELED
                 else if to == OrderStatus.DELIVERED then PaymentStatus.PAID
                 else o.paymentStatus;
      var why := if reason.Some? then reason.value else o.lastStatusChangeReason;
      Ok(Change(ps', o.(status := to, paymentStatus := pay, lastStatusChangeReason := why)))
  }

  /** The side effects of an accepted change on the ledger and the payment
      status: CANCELED puts every item back in stock and cancels the payment,
      RECEIVED adds every item to the sold counters, DELIVERED marks the order
      paid, and the other moves touch neither. */
  lemma ChangeStatusEffects(actor: Actor, ps: map<string, Product>, o: Order, to: OrderStatus,
                            reason: Option<string>)
    requires LinesIn(o.items, ps) && ChangeStatus(actor, ps, o, to, reason).Ok?
    ensures var c := ChangeStatus(actor, ps, o, to, reason).value;
      && (forall pid :: pid in ps ==>
            c.products[pid] ==
              if to == OrderStatus.CANCELED then ps[pid].(inventory := ps[pid].inventory + QtyOf(o.items, pid))
              else if to == OrderStatus.RECEIVED then ps[pid].(sold := ps[pid].sold + QtyOf(o.items, pid))
              else ps[pid])
      && c.order.paymentStatus ==
            (if to == OrderStatus.CANCELED then PaymentStatus.CANCELED
             else if to == OrderStatus.DELIVERED then PaymentStatus.PAID
             else o.paymentStatus)
  {
    Ledgers(ps, o.items);
  }

  /** Cancelling twice is accepted and puts the items back in stock twice. */
  lemma DoubleCancelRestocksTwice(a1: Actor, a2: Actor, ps: map<string, Product>, o: Order,
                                  r1: Option<string>, r2: Option<string>)
    requires LinesIn(o.items, ps) && o.status != OrderStatus.RECEIVED
    ensures ChangeStatus(a1, ps, o, OrderStatus.CANCELED, r1).Ok?
    ensures var c1 := ChangeStatus(a1, ps, o, OrderStatus.CANCELED, r1).value;
      && LinesIn(c1.order.items, c1.products)
      && ChangeStatus(a2, c1.products, c1.order, OrderStatus.CANCELED, r2).Ok?
      && var c2 := ChangeStatus(a2, c1.products, c1.order, OrderStatus.CANCELED, r2).value;
         forall pid :: pid in ps ==>
           c2.products[pid].inventory == ps[pid].inventory + 2 * QtyOf(o.items, pid)
  {
    var c1 := ChangeStatus(a1, ps, o, OrderStatus.CANCELED, r1).value;
    ChangeStatusEffects(a1, ps, o, OrderStatus.CANCELED, r1);
    ChangeStatusEffects(a2, c1.products, c1.order, OrderStatus.CANCELED, r2);
  }

  /** Cancelling a freshly placed order gives every product back exactly the
      stock the order reserved: the product map is as it was before the order. */
  lemma PlaceThenCancelRestores(products: map<string, Product>, cart: map<string, CartItem>,
                                addresses: set<string>, farmers: set<string>,
                                addressId: string, farmerId: string, account: Result<string>,
                                paymentMethod: PaymentMethod, note: Option<string>,
                                cartItemIds: seq<string>, now: int, actor: Actor, reason: Option<string>)
    requires CartIn(Ledger(products, cart, []))
    requires PlaceOrder(products, cart, addresses, farmers, addressId, farmerId, account,
                        paymentMethod, note, cartItemIds, now).Ok?
    ensures var p := PlaceOrder(products, cart, addresses, farmers, addressId, farmerId, account,
                                paymentMethod, note, cartItemIds, now).value;
      && LinesIn(p.order.items, p.ledger.products)
      && ChangeStatus(actor, p.ledger.products, p.order, OrderStatus.CANCELED, reason).Ok?
      && ChangeStatus(actor, p.ledger.products, p.order, OrderStatus.CANCELED, reason).value.products == products
  {
    var p := PlaceOrder(products, cart, addresses, farmers, addressId, farmerId, account,
                        paymentMethod, note, cartItemIds, now).value;
    var l0 := Ledger(products, cart, []);
    var l := Reserve(l0, cartItemIds).value;
    assert p.ledger == l && p.order.items == l.lines;
    RestockUndoesReserve(l0, cartItemIds);
    assert Transition(actor, p.order.status, OrderStatus.CANCELED);
  }

  /** Putting back the lines of a reservation made from no lines gives every
      product back its stock: the product map is the one before it. */
  lemma RestockUndoesReserve(l0: Ledger, ids: seq<string>)
    requires CartIn(l0) && l0.lines == [] && Reserve(l0, ids).Ok?
    ensures var l := Reserve(l0, ids).value;
      LinesIn(l.lines, l.products) && Restock(l.products, l.lines) == l0.products
  {
    var l := Reserve(l0, ids).value;
    ReserveKeepsFields(l0, ids);
    ReserveConserves(l0, ids);
    var after := Restock(l.products, l.lines);
    forall pid | pid in l0.products ensures after[pid] == l0.products[pid] {
      assert QtyOf([], pid) == 0;
      RestockAt(l.products, l.lines, pid);
    }
  }

  /** Puts the order's items back in stock, item by item. */
  method RestockItems(ps: map<string, Product>, lines: seq<OrderLine>) returns (r: map<string, Product>)
    requires LinesIn(lines, ps)
    ensures r == Restock(ps, lines)
  {
    r := ps;
    for i := 0 to |lines|
      invariant r.Keys == ps.Keys
      invariant Restock(ps, lines) == Restock(r, lines[i..])
    {
      assert lines[i..][1..] == lines[i + 1..];
      var pid := lines[i].productId;
      r := r[pid := r[pid].(inventory := r[pid].inventory + lines[i].quantity)];
    }
  }

  /** Adds the order's items to the sold counters, item by item. */
  method RecordSold(ps: map<string, Product>, lines: seq<OrderLine>) returns (r: map<string, Product>)
    requires LinesIn(lines, ps)
    ensures r == AddSold(ps, lines)
  {
    r := ps;
    for i := 0 to |lines|
      invariant r.Keys == ps.Keys
      invariant AddSold(ps, lines) == AddSold(r, lines[i..])
    {
      assert lines[i..][1..] == lines[i + 1..];
      var pid := lines[i].productId;
      r := r[pid := r[pid].(sold := r[pid].sold + lines[i].quantity)];
    }
  }

  /** The outcome of a status change request for order `orderId`. */
  function ChangeOrder(actor: Actor, ps: map<string, Product>, os: map<string, Order>, orderId: string,
                       to: OrderStatus, reason: Option<string>): (r: Result<Change>)
    requires orderId in os ==> LinesIn(os[orderId].items, ps)
    ensures orderId !in os ==> r == Err("order-e-01")
    ensures orderId in os ==> r == ChangeStatus(actor, ps, os[orderId], to, reason)
  {
    if orderId !in os then Err("order-e-01") else ChangeStatus(actor, ps, os[orderId], to, reason)
  }

  /** The order service over its repositories: products, orders and cart
      items by id, and the ids of the stored addresses and farmers. */
  /** Every order's items refer to stored products. */
  ghost predicate OrdersIn(orders: map<string, Order>, ps: map<string, Product>)
  {
    forall id :: id in orders ==> LinesIn(orders[id].items, ps)
  }

  /** Storing an order whose items are in a product map with the same ids
      keeps every order's items in it. */
  lemma OrdersStayIn(orders: map<string, Order>, ps: map<string, Product>, ps': map<string, Product>,
                     id: string, o: Order)
    requires OrdersIn(orders, ps) && ps'.Keys == ps.Keys && LinesIn(o.items, ps')
    ensures OrdersIn(orders[id := o], ps')
  {
  }

  class OrderService {
    var products: map<string, Product>
    var orders: map<string, Order>
    var cartItems: map<string, CartItem>
    var addresses: set<string>
    var farmers: set<string>

    /** Every cart item and every order item refers to a stored product. */
    ghost predicate Valid()
      reads this
    {
      && CartIn(Ledger(products, cartItems, []))
      && OrdersIn(orders, products)
    }

    constructor(products: map<string, Product>, addresses: set<string>, farmers: set<string>)
      ensures Valid()
      ensures this.products == products && this.addresses == addresses && this.farmers == farmers
      ensures orders == map[] && cartItems == map[]
    {
      this.products := products;
      this.addresses := addresses;
      this.farmers := farmers;
      orders := map[];
      cartItems := map[];
    }

    /** Places an order for the cart items `cartItemIds`; `account` is what
        the security context yields for the caller and `newId` the id the
        repository generates. */
    method Create(newId: string, addressId: string, farmerId: string, account: Result<string>,
                  paymentMethod: PaymentMethod, note: Option<string>, cartItemIds: seq<string>, now: int)
      returns (r: Result<Order>)
      requires Valid() && newId !in orders
      modifies this
      ensures Valid()
      ensures addresses == old(addresses) && farmers == old(farmers)
      ensures var s := PlaceOrder(old(products), old(cartItems), old(addresses), old(farmers), addressId,
                                  farmerId, account, paymentMethod, note, cartItemIds, now);
        match s
        case Err(e) =>
          r == Err(e) && products == old(products) && orders == old(orders) && cartItems == old(cartItems)
        case Ok(p) =>
          && r == Ok(p.order)
          && products == p.ledger.products && cartItems == p.ledger.cart
          && orders == old(orders)[newId := p.order]
    {
      ghost var placed := PlaceOrder(products, cartItems, addresses, farmers, addressId, farmerId, account,
                                     paymentMethod, note, cartItemIds, now);
      if addressId !in addresses { return Err("address-e-01"); }
      if farmerId !in farmers { return Err("farmer-e-01"); }
      if account.Err? { return Err(account.code); }
      if paymentMethod != COD && paymentMethod != VNPAY { return Err("order-e-01"); }
      var order := Persisted(note, addressId, account.value, farmerId, paymentMethod, now);
      var reserved, totalQuantity, totalPrice := ReserveCartItems(products, cartItems, cartItemIds);
      if reserved.Err? {
        assert placed == Err(reserved.code);
        return Err(reserved.code);
      }
      var l := reserved.value;
      if !DistinctProducts(l.lines) {
        assert placed == Err("IllegalStateException");
        return Err("IllegalStateException");
      }
      order := order.(totalPrice := Some(totalPrice), totalQuantity := Some(totalQuantity), items := l.lines);
      assert placed == Ok(Placed(order, l));
      OrdersStayIn(orders, products, l.products, newId, order);
      products := l.products;
      cartItems := l.cart;
      orders := orders[newId := order];
      r := Ok(order);
    }

    /** The buyer cancels the order or confirms its receipt. */
    method ConsumerChangeStatus(orderId: string, status: OrderStatus, reason: Option<string>)
      returns (r: Result<Order>)
      requires Valid()
      modifies this
      ensures Valid()
      ensures cartItems == old(cartItems) && addresses == old(addresses) && farmers == old(farmers)
      ensures match ChangeOrder(Consumer, old(products), old(orders), orderId, status, reason)
        case Err(e) => r == Err(e) && products == old(products) && orders == old(orders)
        case Ok(c) => r == Ok(c.order) && products == c.products && orders == old(orders)[orderId := c.order]
    {
      if orderId !in orders { return Err("order-e-01"); }
      var order := orders[orderId];
      if status != OrderStatus.CANCELED && status != OrderStatus.RECEIVED {
        return Err("order-e-02");
      }
      if status == OrderStatus.CANCELED && order.status == OrderStatus.RECEIVED {
        return Err("order-e-05");
      }
      if status == OrderStatus.RECEIVED && order.status != OrderStatus.DELIVERED {
        return Err("order-e-06");
      }
      var ps := products;
      if status == OrderStatus.RECEIVED {
        ps := RecordSold(ps, order.items);
      } else if status == OrderStatus.CANCELED {
        ps := RestockItems(ps, order.items);
        order := order.(paymentStatus := PaymentStatus.CANCELED);
      }
      if reason.Some? {
        order := order.(lastStatusChangeReason := reason.value);
      }
      order := order.(status := status);
      products := ps;
      orders := orders[orderId := order];
      r := Ok(order);
    }

    /** The selling farmer confirms, ships, delivers or cancels the order. */
    method FarmerChangeStatus(orderId: string, status: OrderStatus, reason: Option<string>)
      returns (r: Result<Order>)
      requires Valid()
      modifies this
      ensures Valid()
      ensures cartItems == old(cartItems) && addresses == old(addresses) && farmers == old(farmers)
      ensures match ChangeOrder(Farmer, old(products), old(orders), orderId, status, reason)
        case Err(e) => r == Err(e) && products == old(products) && orders == old(orders)
        case Ok(c) => r == Ok(c.order) && products == c.products && orders == old(orders)[orderId := c.order]
    {
      if orderId !in orders { return Err("order-e-01"); }
      var order := orders[orderId];
      if status !in {OrderStatus.CONFIRMED, OrderStatus.DELIVERING, OrderStatus.DELIVERED, OrderStatus.CANCELED} {
        return Err("order-e-02");
      }
      if status == OrderStatus.CONFIRMED {
        if order.status != OrderStatus.PENDING { return Err("order-e-03"); }
      } else if status == OrderStatus.DELIVERING {
        if order.status != OrderStatus.CONFIRMED { return Err("order-e-04"); }
      } else if status == OrderStatus.DELIVERED {
        if order.status != OrderStatus.DELIVERING { return Err("order-e-05"); }
        order := order.(paymentStatus := PaymentStatus.PAID);
      } else if status == OrderStatus.CANCELED {
        if order.status == OrderStatus.RECEIVED { return Err("order-e-06"); }
        order := order.(paymentStatus := PaymentStatus.CANCELED);
      }
      var ps := products;
      if status == OrderStatus.CANCELED {
        ps := RestockItems(ps, order.items);
      }
      if reason.Some? {
        order := order.(lastStatusChangeReason := reason.value);
      }
      order := order.(status := status);
      products := ps;
      orders := orders[orderId := order];
      r := Ok(order);
    }
  }
}
