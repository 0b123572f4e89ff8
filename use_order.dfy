/** The checkout hook: one pending order per farmer group of the cart,
    added to the order store. The temporary ids and timestamps, which the
    hook draws from the clock and a random number, are parameters. */
module UseOrder {
  import opened Common
  import opened OrderStore

  /** The product fields the hook reads; each may be absent. */
  datatype ProductRef = ProductRef(name: Option<string>, price: Option<int>, thumbnail: Option<string>)

  /** A cart line of a group. */
  datatype GroupItem = GroupItem(id: string, product: Option<ProductRef>, quantity: int)

  /** The farmer of a group. */
  datatype FarmerRef = FarmerRef(id: string, name: Option<string>)

  /** The cart lines of one farmer. */
  datatype FarmerGroup = FarmerGroup(farmer: FarmerRef, items: seq<GroupItem>)

  /** `||` on a string: an absent or empty value gives the default. */
  function OrDefault(s: Option<string>, default: string): (r: string)
    ensures s.Some? && s.value != "" ==> r == s.value
    ensures s.None? || s.value == "" ==> r == default
  {
    if s.Some? && s.value != "" then s.value else default
  }

  /** A pending order's line for a cart line: a missing product name is
      "Sản phẩm" and a missing price 0. */
  function ToItem(item: GroupItem): (r: PendingItem)
    ensures r.cartItemId == item.id && r.quantity == item.quantity
    ensures item.product.None? ==> r.productName == "Sản phẩm" && r.price == 0 && r.thumbnail == None
    ensures item.product.Some? && item.product.value.price.None? ==> r.price == 0
    ensures item.product.Some? && item.product.value.name.Some? && item.product.value.name.value != "" ==>
      r.productName == item.product.value.name.value
  {
    var name := if item.product.Some? then item.product.value.name else None;
    var price := if item.product.Some? && item.product.value.price.Some? then item.product.value.price.value else 0;
    var thumbnail := if item.product.Some? then item.product.value.thumbnail else None;
    PendingItem(item.id, OrDefault(name, "Sản phẩm"), item.quantity, price, thumbnail)
  }

  /** The ids of a group's cart lines, in order. */
  function CartItemIds(items: seq<GroupItem>): (r: seq<string>)
    ensures |r| == |items| && forall k :: 0 <= k < |items| ==> r[k] == items[k].id
  {
    seq(|items|, k requires 0 <= k < |items| => items[k].id)
  }

  /** The pending order the hook builds for a group. */
  function ToPending(group: FarmerGroup, orderNote: string, selectedAddress: string, tempId: string, createdAt: string)
    : PendingOrder
  {
    PendingOrder(tempId,
                 OrderRequest(orderNote, selectedAddress, group.farmer.id, CartItemIds(group.items)),
                 OrDefault(group.farmer.name, "Không xác định"),
                 group.farmer.id,
                 seq(|group.items|, k requires 0 <= k < |group.items| => ToItem(group.items[k])),
                 createdAt)
  }

  /** The pending orders for the groups, in group order. */
  function Pendings(groups: seq<FarmerGroup>, orderNote: string, selectedAddress: string,
                    tempIds: seq<string>, createdAts: seq<string>): (r: seq<PendingOrder>)
    requires |tempIds| == |groups| && |createdAts| == |groups|
    ensures |r| == |groups|
  {
    if groups == [] then []
    else
      var n := |groups| - 1;
      Pendings(groups[..n], orderNote, selectedAddress, tempIds[..n], createdAts[..n])
        + [ToPending(groups[n], orderNote, selectedAddress, tempIds[n], createdAts[n])]
  }

  /** The pending order of group `k` is built from that group. */
  lemma {:induction false} PendingsAt(groups: seq<FarmerGroup>, orderNote: string, selectedAddress: string,
                                      tempIds: seq<string>, createdAts: seq<string>, k: int)
    requires |tempIds| == |groups| && |createdAts| == |groups| && 0 <= k < |groups|
    ensures Pendings(groups, orderNote, selectedAddress, tempIds, createdAts)[k] ==
      ToPending(groups[k], orderNote, selectedAddress, tempIds[k], createdAts[k])
  {
    var n := |groups| - 1;
    if k < n {
      PendingsAt(groups[..n], orderNote, selectedAddress, tempIds[..n], createdAts[..n], k);
    }
  }

  /** A sequence back to front. */
  function Reverse<T>(s: seq<T>): (r: seq<T>)
    ensures |r| == |s|
  {
    if s == [] then [] else [s[|s| - 1]] + Reverse(s[..|s| - 1])
  }

  lemma {:induction false} ReverseAt<T>(s: seq<T>, k: int)
    requires 0 <= k < |s|
    ensures Reverse(s)[k] == s[|s| - 1 - k]
  {
    if k > 0 {
      ReverseAt(s[..|s| - 1], k - 1);
    }
  }

  /** What the store holds after the hook: one pending order per group, the
      last group's first since each is prepended; each names its group's
      farmer, requests exactly the group's cart lines in order, and falls
      back to "Không xác định" for a farmer without a name. */
  lemma PendingShape(groups: seq<FarmerGroup>, orderNote: string, selectedAddress: string,
                     tempIds: seq<string>, createdAts: seq<string>, k: int)
    requires |tempIds| == |groups| && |createdAts| == |groups| && 0 <= k < |groups|
    ensures var stored := Reverse(Pendings(groups, orderNote, selectedAddress, tempIds, createdAts));
      && |stored| == |groups|
      && var p := stored[|groups| - 1 - k];
         && p.farmerId == groups[k].farmer.id && p.request.farmerId == groups[k].farmer.id
         && p.request.cartItemIds == CartItemIds(groups[k].items)
         && p.request.note == orderNote && p.request.addressId == selectedAddress
         && |p.items| == |groups[k].items|
         && p.tempId == tempIds[k]
         && (groups[k].farmer.name.None? ==> p.farmerName == "Không xác định")
  {
    var ps := Pendings(groups, orderNote, selectedAddress, tempIds, createdAts);
    ReverseAt(ps, |groups| - 1 - k);
    PendingsAt(groups, orderNote, selectedAddress, tempIds, createdAts, k);
  }

  /** `createPendingOrders`: clears the pending orders, then prepends one
      per group; nothing else in the store changes. */
  method CreatePendingOrders(store: OrderStore, groups: seq<FarmerGroup>, orderNote: string,
                             selectedAddress: string, tempIds: seq<string>, createdAts: seq<string>)
    requires |tempIds| == |groups| && |createdAts| == |groups|
    modifies store
    ensures store.pendingOrders == Reverse(Pendings(groups, orderNote, selectedAddress, tempIds, createdAts))
    ensures store.orders == old(store.orders) && store.farmerOrders == old(store.farmerOrders)
    ensures store.lastCreatedOrders == old(store.lastCreatedOrders) && store.error == old(store.error)
  {
    store.ClearPendingOrders();
    for i := 0 to |groups|
      invariant store.pendingOrders == Reverse(Pendings(groups[..i], orderNote, selectedAddress, tempIds[..i], createdAts[..i]))
      invariant store.orders == old(store.orders) && store.farmerOrders == old(store.farmerOrders)
      invariant store.lastCreatedOrders == old(store.lastCreatedOrders) && store.error == old(store.error)
    {
      var pending := ToPending(groups[i], orderNote, selectedAddress, tempIds[i], createdAts[i]);
      store.AddPendingOrder(pending);
      assert groups[..i + 1][..i] == groups[..i];
      assert tempIds[..i + 1][..i] == tempIds[..i];
      assert createdAts[..i + 1][..i] == createdAts[..i];
    }
    assert groups[..|groups|] == groups;
    assert tempIds[..|groups|] == tempIds;
    assert createdAts[..|groups|] == createdAts;
  }
}
