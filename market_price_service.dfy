/** The market price service: recording a product's price in a region on
    a date, patching a record, listing all records by date, and deleting
    one. Dates are integers ordered as `LocalDateTime.compareTo` orders
    them. */
module MarketPriceService {
  import opened Common
  import opened Catalog

  /** A price record, with its product held by id. */
  datatype MarketPrice = MarketPrice(id: string, price: int, region: string, dateRecorded: int, productId: string)

  /** The fields of a creation request, all required. */
  datatype CreationRequest = CreationRequest(price: int, region: string, dateRecorded: int, productId: string)

  /** The fields of a patch; each may be null. */
  datatype UpdateRequest = UpdateRequest(
    price: Option<int>,
    region: Option<string>,
    productId: Option<string>,
    dateRecorded: Option<int>)

  /** Ascending by date, each record against the next. */
  predicate ByDate(s: seq<MarketPrice>)
  {
    forall i :: 0 <= i < |s| - 1 ==> s[i].dateRecorded <= s[i + 1].dateRecorded
  }

  /** Ascending by date, any record against any later one. */
  lemma {:induction false} ByDateOrdered(s: seq<MarketPrice>, i: int, j: int)
    requires ByDate(s) && 0 <= i <= j < |s|
    ensures s[i].dateRecorded <= s[j].dateRecorded
    decreases j - i
  {
    if i < j {
      ByDateOrdered(s, i + 1, j);
    }
  }

  /** `x` placed into a date-ordered list after every record dated no
      later, which is where a stable sort puts a record that came last. */
  function InsertByDate(x: MarketPrice, s: seq<MarketPrice>): (r: seq<MarketPrice>)
    ensures |r| == |s| + 1
    ensures r[0] == x || (|s| > 0 && r[0] == s[0])
  {
    if s == [] || x.dateRecorded < s[0].dateRecorded then [x] + s
    else [s[0]] + InsertByDate(x, s[1..])
  }

  /** Inserting keeps the list ordered and adds exactly `x`. */
  lemma {:induction false} InsertByDateSorts(x: MarketPrice, s: seq<MarketPrice>)
    requires ByDate(s)
    ensures ByDate(InsertByDate(x, s))
    ensures multiset(InsertByDate(x, s)) == multiset(s) + multiset{x}
  {
    if s == [] || x.dateRecorded < s[0].dateRecorded {
    } else {
      var tail := InsertByDate(x, s[1..]);
      InsertByDateSorts(x, s[1..]);
      assert s == [s[0]] + s[1..];
      var r := [s[0]] + tail;
      forall i | 0 <= i < |r| - 1
        ensures r[i].dateRecorded <= r[i + 1].dateRecorded
      {
        if i > 0 {
          assert r[i] == tail[i - 1] && r[i + 1] == tail[i];
        }
      }
    }
  }

  /** The records in the repository's listing order. */
  function Listed(prices: map<string, MarketPrice>, order: seq<string>): (r: seq<MarketPrice>)
    requires forall k :: 0 <= k < |order| ==> order[k] in prices
    ensures |r| == |order|
    ensures forall k :: 0 <= k < |order| ==> r[k] == prices[order[k]]
  {
    seq(|order|, k requires 0 <= k < |order| => prices[order[k]])
  }

  /** `updatePatch` on a record, once the product is known to exist. */
  function Patched(m: MarketPrice, request: UpdateRequest): MarketPrice
  {
    m.(productId := if request.productId.Some? then request.productId.value else m.productId,
       price := if request.price.Some? then request.price.value else m.price,
       region := if request.region.Some? then request.region.value else m.region,
       dateRecorded := if request.dateRecorded.Some? then request.dateRecorded.value else m.dateRecorded)
  }

  /** A patch replaces exactly its non-null fields: applying it twice is
      applying it once, the all-null patch changes nothing, and the id never
      changes. */
  lemma PatchLaws(m: MarketPrice, request: UpdateRequest)
    ensures Patched(Patched(m, request), request) == Patched(m, request)
    ensures Patched(m, UpdateRequest(None, None, None, None)) == m
    ensures Patched(m, request).id == m.id
    ensures var n := Patched(m, request);
      && (request.productId.Some? ==> n.productId == request.productId.value)
      && (request.productId.None? ==> n.productId == m.productId)
      && (request.price.Some? ==> n.price == request.price.value)
      && (request.price.None? ==> n.price == m.price)
      && (request.region.Some? ==> n.region == request.region.value)
      && (request.region.None? ==> n.region == m.region)
      && (request.dateRecorded.Some? ==> n.dateRecorded == request.dateRecorded.value)
      && (request.dateRecorded.None? ==> n.dateRecorded == m.dateRecorded)
  {
  }

  /** The service over the market price and product repositories. */
  class MarketPriceService {
    var products: map<string, Product>
    var marketPrices: map<string, MarketPrice>

    ghost predicate Valid()
      reads this
    {
      forall id :: id in marketPrices ==> marketPrices[id].id == id
    }

    constructor(products: map<string, Product>, marketPrices: map<string, MarketPrice>)
      requires forall id :: id in marketPrices ==> marketPrices[id].id == id
      ensures Valid() && this.products == products && this.marketPrices == marketPrices
    {
      this.products := products;
      this.marketPrices := marketPrices;
    }

    /** `create`: product-e-01 for an unknown product; the new record gets
        the id `newId`. */
    method Create(newId: string, request: CreationRequest) returns (r: Result<MarketPrice>)
      requires Valid() && newId !in marketPrices
      modifies this
      ensures Valid() && products == old(products)
      ensures request.productId !in products ==> r == Err("product-e-01") && marketPrices == old(marketPrices)
      ensures request.productId in products ==>
        && r == Ok(MarketPrice(newId, request.price, request.region, request.dateRecorded, request.productId))
        && marketPrices == old(marketPrices)[newId := r.value]
    {
      if request.productId !in products {
        return Err("product-e-01");
      }
      var marketPrice := MarketPrice(newId, request.price, request.region, request.dateRecorded, request.productId);
      marketPrices := marketPrices[newId := marketPrice];
      r := Ok(marketPrice);
    }

    /** `updatePatch`: market-price-e-01 for an unknown record, product-e-01
        for a non-null unknown product; otherwise only the non-null fields
        change. */
    method UpdatePatch(id: string, request: UpdateRequest) returns (r: Result<MarketPrice>)
      requires Valid()
      modifies this
      ensures Valid() && products == old(products)
      ensures id !in old(marketPrices) ==> r == Err("market-price-e-01") && marketPrices == old(marketPrices)
      ensures id in old(marketPrices) && request.productId.Some? && request.productId.value !in products ==>
        r == Err("product-e-01") && marketPrices == old(marketPrices)
      ensures id in old(marketPrices) && (request.productId.None? || request.productId.value in products) ==>
        && r == Ok(Patched(old(marketPrices)[id], request))
        && marketPrices == old(marketPrices)[id := r.value]
    {
      if id !in marketPrices {
        return Err("market-price-e-01");
      }
      var marketPrice := marketPrices[id];
      if request.productId.Some? {
        if request.productId.value !in products {
          return Err("product-e-01");
        }
        marketPrice := marketPrice.(productId := request.productId.value);
      }
      if request.price.Some? {
        marketPrice := marketPrice.(price := request.price.value);
      }
      if request.region.Some? {
        marketPrice := marketPrice.(region := request.region.value);
      }
      if request.dateRecorded.Some? {
        marketPrice := marketPrice.(dateRecorded := request.dateRecorded.value);
      }
      marketPrices := marketPrices[id := marketPrice];
      r := Ok(marketPrice);
    }

    /** `findAll`: every record exactly once, ascending by date; `order` is
        the order in which the repository lists the ids. */
    method FindAll(order: seq<string>) returns (r: seq<MarketPrice>)
      requires forall k :: 0 <= k < |order| ==> order[k] in marketPrices
      requires forall id :: id in marketPrices ==> id in order
      ensures ByDate(r)
      ensures multiset(r) == multiset(Listed(marketPrices, order))
      ensures forall id :: id in marketPrices ==> marketPrices[id] in r
    {
      var listed := Listed(marketPrices, order);
      r := SortByDate(listed);
      forall id | id in marketPrices
        ensures marketPrices[id] in r
      {
        var k :| 0 <= k < |order| && order[k] == id;
        assert listed[k] == marketPrices[id];
        assert marketPrices[id] in multiset(listed);
      }
    }

    /** `deleteById`: market-price-e-01 for an unknown record. */
    method DeleteById(id: string) returns (r: Outcome)
      requires Valid()
      modifies this
      ensures Valid() && products == old(products)
      ensures id !in old(marketPrices) ==> r == Fail("market-price-e-01") && marketPrices == old(marketPrices)
      ensures id in old(marketPrices) ==> r == Done && marketPrices == old(marketPrices) - {id}
    {
      if id !in marketPrices {
        return Fail("market-price-e-01");
      }
      marketPrices := marketPrices - {id};
      r := Done;
    }
  }

  /** The sort `findAll` applies: each record in turn is inserted into the
      sorted prefix. */
  method SortByDate(prices: seq<MarketPrice>) returns (sorted: seq<MarketPrice>)
    ensures ByDate(sorted)
    ensures multiset(sorted) == multiset(prices)
  {
    sorted := [];
    for i := 0 to |prices|
      invariant ByDate(sorted)
      invariant multiset(sorted) == multiset(prices[..i])
    {
      InsertByDateSorts(prices[i], sorted);
      assert prices[..i + 1] == prices[..i] + [prices[i]];
      sorted := InsertByDate(prices[i], sorted);
    }
    assert prices[..|prices|] == prices;
  }
}
