/** The browser-side order store: the consumer's and the farmer's orders
    from the server, the pending orders created at checkout, and the
    actions and queries over them. The order service's replies are
    parameters. */
module OrderStore {
  import opened Common

  /** The order fields the store reads and changes. */
  datatype OrderView = OrderView(id: string, status: string, totalPrice: int, totalQuantity: int,
                                 note: string, createdAt: string)

  /** The request the checkout sends for one farmer. */
  datatype OrderRequest = OrderRequest(note: string, addressId: string, farmerId: string, cartItemIds: seq<string>)

  /** A line of a pending order. */
  datatype PendingItem = PendingItem(cartItemId: string, productName: string, quantity: int, price: int,
                                     thumbnail: Option<string>)

  /** An order created at checkout and not yet confirmed by the server. */
  datatype PendingOrder = PendingOrder(tempId: string, request: OrderRequest, farmerName: string, farmerId: string,
                                       items: seq<PendingItem>, createdAt: string)

  /** What an order service call gave back: a result, an error message, or
      an exception. */
  datatype Reply<T> = Answered(result: T) | Failed(message: string) | Threw

  /** The orders after `updateOrderStatus`: the orders with the id take the
      status, and nothing else changes. */
  function Relabeled(orders: seq<OrderView>, id: string, status: string): (r: seq<OrderView>)
    ensures |r| == |orders|
    ensures forall k :: 0 <= k < |orders| ==>
      r[k].id == orders[k].id && (orders[k].id != id ==> r[k] == orders[k])
    ensures forall k :: 0 <= k < |orders| && orders[k].id == id ==> r[k] == orders[k].(status := status)
  {
    seq(|orders|, k requires 0 <= k < |orders| => if orders[k].id == id then orders[k].(status := status) else orders[k])
  }

  /** The pending orders after `removePendingOrder`: `filter` keeps, in
      order, those with another temporary id. */
  function WithoutTemp(pending: seq<PendingOrder>, tempId: string): (r: seq<PendingOrder>)
    ensures |r| <= |pending|
    ensures forall p :: p in r ==> p in pending && p.tempId != tempId
    ensures forall p :: p in pending && p.tempId != tempId ==> p in r
  {
    if pending == [] then []
    else
      var rest := WithoutTemp(pending[1..], tempId);
      if pending[0].tempId != tempId then [pending[0]] + rest else rest
  }

  /** `find` over orders: the first with the id. */
  function FindOrder(orders: seq<OrderView>, id: string): (r: Option<OrderView>)
    ensures r.Some? ==> r.value in orders && r.value.id == id
    ensures r.None? ==> forall k :: 0 <= k < |orders| ==> orders[k].id != id
  {
    if orders == [] then None
    else if orders[0].id == id then Some(orders[0])
    else FindOrder(orders[1..], id)
  }

  /** The pending orders of one farmer, in their order. */
  function OfFarmer(pending: seq<PendingOrder>, farmerId: string): (r: seq<PendingOrder>)
    ensures forall p :: p in r ==> p in pending && p.farmerId == farmerId
  {
    if pending == [] then []
    else
      var front := OfFarmer(pending[..|pending| - 1], farmerId);
      var last := pending[|pending| - 1];
      if last.farmerId == farmerId then front + [last] else front
  }

  /** `getPendingOrdersByFarmer`: the `reduce` that pushes each pending
      order onto its farmer's list. */
  function Grouped(pending: seq<PendingOrder>): map<string, seq<PendingOrder>>
  {
    if pending == [] then map[]
    else
      var groups := Grouped(pending[..|pending| - 1]);
      var last := pending[|pending| - 1];
      var farmerId := last.farmerId;
      groups[farmerId := (if farmerId in groups then groups[farmerId] else []) + [last]]
  }

  /** The grouping partitions the pending orders by farmer: there is a list
      exactly for the farmers with a pending order, and each list holds that
      farmer's pending orders in their order. */
  lemma {:induction false} GroupedPartitions(pending: seq<PendingOrder>, farmerId: string)
    ensures farmerId in Grouped(pending) <==> exists k :: 0 <= k < |pending| && pending[k].farmerId == farmerId
    ensures farmerId in Grouped(pending) ==> Grouped(pending)[farmerId] == OfFarmer(pending, farmerId)
    ensures farmerId !in Grouped(pending) ==> OfFarmer(pending, farmerId) == []
  {
    if pending != [] {
      var front := pending[..|pending| - 1];
      GroupedPartitions(front, farmerId);
      if exists k :: 0 <= k < |front| && front[k].farmerId == farmerId {
        var k :| 0 <= k < |front| && front[k].farmerId == farmerId;
        assert pending[k] == front[k];
      }
      if exists k :: 0 <= k < |pending| && pending[k].farmerId == farmerId {
        var k :| 0 <= k < |pending| && pending[k].farmerId == farmerId;
        if k < |front| {
          assert front[k] == pending[k];
        }
      }
    }
  }

  /** The order store's state. */
  class OrderStore {
    var orders: seq<OrderView>
    var farmerOrders: seq<OrderView>
    var pendingOrders: seq<PendingOrder>
    var lastCreatedOrders: seq<OrderView>
    var isLoading: bool
    var isLoadingFarmerOrders: bool
    var error: Option<string>

    constructor()
      ensures orders == [] && farmerOrders == [] && pendingOrders == [] && lastCreatedOrders == []
      ensures !isLoading && !isLoadingFarmerOrders && error == None
    {
      orders := [];
      farmerOrders := [];
      pendingOrders := [];
      lastCreatedOrders := [];
      isLoading := false;
      isLoadingFarmerOrders := false;
      error := None;
    }

    /** `setOrders`. */
    method SetOrders(newOrders: seq<OrderView>)
      modifies this
      ensures orders == newOrders
      ensures farmerOrders == old(farmerOrders) && pendingOrders == old(pendingOrders)
      ensures lastCreatedOrders == old(lastCreatedOrders) && error == old(error)
      ensures isLoading == old(isLoading) && isLoadingFarmerOrders == old(isLoadingFarmerOrders)
    {
      orders := newOrders;
    }

    /** `setFarmerOrders`. */
    method SetFarmerOrders(newOrders: seq<OrderView>)
      modifies this
      ensures farmerOrders == newOrders
      ensures orders == old(orders) && pendingOrders == old(pendingOrders)
      ensures lastCreatedOrders == old(lastCreatedOrders) && error == old(error)
      ensures isLoading == old(isLoading) && isLoadingFarmerOrders == old(isLoadingFarmerOrders)
    {
      farmerOrders := newOrders;
    }

    /** `setLastCreatedOrders`; `clearLastCreatedOrders` is this with no
        orders. */
    method SetLastCreatedOrders(newOrders: seq<OrderView>)
      modifies this
      ensures lastCreatedOrders == newOrders
      ensures orders == old(orders) && farmerOrders == old(farmerOrders) && pendingOrders == old(pendingOrders)
      ensures error == old(error)
      ensures isLoading == old(isLoading) && isLoadingFarmerOrders == old(isLoadingFarmerOrders)
    {
      lastCreatedOrders := newOrders;
    }

    /** `setLoading`. */
    method SetLoading(loading: bool)
      modifies this
      ensures isLoading == loading
      ensures orders == old(orders) && farmerOrders == old(farmerOrders) && pendingOrders == old(pendingOrders)
      ensures lastCreatedOrders == old(lastCreatedOrders) && error == old(error)
      ensures isLoadingFarmerOrders == old(isLoadingFarmerOrders)
    {
      isLoading := loading;
    }

    /** `setLoadingFarmerOrders`. */
    method SetLoadingFarmerOrders(loading: bool)
      modifies this
      ensures isLoadingFarmerOrders == loading
      ensures orders == old(orders) && farmerOrders == old(farmerOrders) && pendingOrders == old(pendingOrders)
      ensures lastCreatedOrders == old(lastCreatedOrders) && error == old(error)
      ensures isLoading == old(isLoading)
    {
      isLoadingFarmerOrders := loading;
    }

    /** `setError`. */
    method SetError(newError: Option<string>)
      modifies this
      ensures error == newError
      ensures orders == old(orders) && farmerOrders == old(farmerOrders) && pendingOrders == old(pendingOrders)
      ensures lastCreatedOrders == old(lastCreatedOrders)
      ensures isLoading == old(isLoading) && isLoadingFarmerOrders == old(isLoadingFarmerOrders)
    {
      error := newError;
    }

    /** `addOrder`: the order goes first. */
    method AddOrder(order: OrderView)
      modifies this
      ensures orders == [order] + old(orders)
      ensures farmerOrders == old(farmerOrders) && pendingOrders == old(pendingOrders)
      ensures lastCreatedOrders == old(lastCreatedOrders) && error == old(error)
      ensures isLoading == old(isLoading) && isLoadingFarmerOrders == old(isLoadingFarmerOrders)
      ensures TotalOrders() == old(TotalOrders()) + 1
      ensures OrderById(order.id) == Some(order)
    {
      orders := [order] + orders;
    }

    /** `updateOrderStatus`: in both lists. */
    method UpdateOrderStatus(orderId: string, status: string)
      modifies this
      ensures orders == Relabeled(old(orders), orderId, status)
      ensures farmerOrders == Relabeled(old(farmerOrders), orderId, status)
      ensures pendingOrders == old(pendingOrders) && lastCreatedOrders == old(lastCreatedOrders)
      ensures error == old(error)
      ensures isLoading == old(isLoading) && isLoadingFarmerOrders == old(isLoadingFarmerOrders)
    {
      orders := Relabeled(orders, orderId, status);
      farmerOrders := Relabeled(farmerOrders, orderId, status);
    }

    /** `addPendingOrder`: the pending order goes first. */
    method AddPendingOrder(pendingOrder: PendingOrder)
      modifies this
      ensures pendingOrders == [pendingOrder] + old(pendingOrders)
      ensures orders == old(orders) && farmerOrders == old(farmerOrders)
      ensures lastCreatedOrders == old(lastCreatedOrders) && error == old(error)
      ensures isLoading == old(isLoading) && isLoadingFarmerOrders == old(isLoadingFarmerOrders)
      ensures TotalOrders() == old(TotalOrders()) + 1
    {
      pendingOrders := [pendingOrder] + pendingOrders;
    }

    /** `removePendingOrder`. */
    method RemovePendingOrder(tempId: string)
      modifies this
      ensures pendingOrders == WithoutTemp(old(pendingOrders), tempId)
      ensures orders == old(orders) && farmerOrders == old(farmerOrders)
      ensures lastCreatedOrders == old(lastCreatedOrders) && error == old(error)
      ensures isLoading == old(isLoading) && isLoadingFarmerOrders == old(isLoadingFarmerOrders)
    {
      pendingOrders := WithoutTemp(pendingOrders, tempId);
    }

    /** `clearPendingOrders`. */
    method ClearPendingOrders()
      modifies this
      ensures pendingOrders == []
      ensures orders == old(orders) && farmerOrders == old(farmerOrders)
      ensures lastCreatedOrders == old(lastCreatedOrders) && error == old(error)
      ensures isLoading == old(isLoading) && isLoadingFarmerOrders == old(isLoadingFarmerOrders)
    {
      pendingOrders := [];
    }

    /** `fetchAllOrders`, given the service's reply: a missing result counts
        as no orders; loading ends in every case. */
    method FetchAllOrders(reply: Reply<Option<seq<OrderView>>>)
      modifies this
      ensures !isLoading
      ensures reply.Answered? ==>
        error == None && orders == (if reply.result.Some? then reply.result.value else [])
      ensures reply.Failed? ==> error == Some(reply.message) && orders == old(orders)
      ensures reply.Threw? ==> error == Some("Không thể tải danh sách đơn hàng") && orders == old(orders)
      ensures farmerOrders == old(farmerOrders) && pendingOrders == old(pendingOrders)
      ensures lastCreatedOrders == old(lastCreatedOrders) && isLoadingFarmerOrders == old(isLoadingFarmerOrders)
    {
      isLoading := true;
      error := None;
      match reply {
        case Answered(result) =>
          orders := if result.Some? then result.value else [];
        case Failed(message) =>
          error := Some(message);
        case Threw =>
          error := Some("Không thể tải danh sách đơn hàng");
      }
      isLoading := false;
    }

    /** `fetchFarmerOrders`, given the service's reply. */
    method FetchFarmerOrders(reply: Reply<Option<seq<OrderView>>>)
      modifies this
      ensures !isLoadingFarmerOrders
      ensures reply.Answered? ==>
        error == None && farmerOrders == (if reply.result.Some? then reply.result.value else [])
      ensures reply.Failed? ==> error == Some(reply.message) && farmerOrders == old(farmerOrders)
      ensures reply.Threw? ==> error == Some("Không thể tải danh sách đơn hàng") && farmerOrders == old(farmerOrders)
      ensures orders == old(orders) && pendingOrders == old(pendingOrders)
      ensures lastCreatedOrders == old(lastCreatedOrders) && isLoading == old(isLoading)
    {
      isLoadingFarmerOrders := true;
      error := None;
      match reply {
        case Answered(result) =>
          farmerOrders := if result.Some? then result.value else [];
        case Failed(message) =>
          error := Some(message);
        case Threw =>
          error := Some("Không thể tải danh sách đơn hàng");
      }
      isLoadingFarmerOrders := false;
    }

    /** `changeOrderStatus`, given the service's reply: the local lists
        change, and true comes back, only when the service reports no
        error. */
    method ChangeOrderStatus(orderId: string, status: string, reply: Reply<()>) returns (ok: bool)
      modifies this
      ensures ok <==> reply.Answered?
      ensures ok ==> orders == Relabeled(old(orders), orderId, status)
                     && farmerOrders == Relabeled(old(farmerOrders), orderId, status) && error == old(error)
      ensures !ok ==> orders == old(orders) && farmerOrders == old(farmerOrders)
      ensures reply.Failed? ==> error == Some(reply.message)
      ensures reply.Threw? ==> error == Some("Không thể cập nhật trạng thái đơn hàng")
      ensures pendingOrders == old(pendingOrders) && lastCreatedOrders == old(lastCreatedOrders)
      ensures isLoading == old(isLoading) && isLoadingFarmerOrders == old(isLoadingFarmerOrders)
    {
      match reply {
        case Answered(_) =>
          UpdateOrderStatus(orderId, status);
          ok := true;
        case Failed(message) =>
          error := Some(message);
          ok := false;
        case Threw =>
          error := Some("Không thể cập nhật trạng thái đơn hàng");
          ok := false;
      }
    }

    /** `getTotalOrders`. */
    function TotalOrders(): (n: int)
      reads this
      ensures n >= 0
    {
      |orders| + |pendingOrders|
    }

    /** `getOrderById`: the consumer's orders first, then the farmer's. */
    function OrderById(id: string): (r: Option<OrderView>)
      reads this
      ensures FindOrder(orders, id).Some? ==> r == FindOrder(orders, id)
      ensures r.Some? ==> r.value.id == id && (r.value in orders || r.value in farmerOrders)
      ensures r.None? <==>
        (forall k :: 0 <= k < |orders| ==> orders[k].id != id) &&
        (forall k :: 0 <= k < |farmerOrders| ==> farmerOrders[k].id != id)
    {
      var found := FindOrder(orders, id);
      if found.Some? then found else FindOrder(farmerOrders, id)
    }

    /** `getPendingOrdersByFarmer`. */
    function PendingOrdersByFarmer(): map<string, seq<PendingOrder>>
      reads this
    {
      Grouped(pendingOrders)
    }
  }
}
