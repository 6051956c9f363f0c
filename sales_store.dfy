/**
 * The sale-creation workflow over an in-memory store of customers, products,
 * sales and sale items.
 *
 * `CreateSale` runs as one transaction: an optional credit grant to the
 * customer, one new sale, then for every line item a stock decrement of its
 * product and a new sale item linked to the sale. A failure before any write
 * (unknown customer, credit above the limit) leaves the store as it was; a
 * failure in the line-item loop (unknown product) rolls every write back.
 * `CreateSaleItem` is a single decrement and append with no transaction.
 */
module SalesStore {
  import opened SaleTypes
  import opened SaleNumber

  /** The whole content of the store, for stating what an operation left alone. */
  datatype StoreState = StoreState(
    customers: map<Id, Customer>,
    products: map<Id, Product>,
    sales: seq<Sale>,
    saleItems: seq<SaleItem>)

  // ---------------------------------------------------------------------------
  // Credit

  /**
   * A credit grant of `amount`: it leaves the available limit and joins the
   * outstanding balance, so the two together keep their sum.
   */
  function GrantCredit(c: Customer, amount: int): (r: Customer)
    ensures r.id == c.id && r.name == c.name
    ensures r.unpaidCreditAmount == c.unpaidCreditAmount + amount
    ensures r.maxCreditLimit + r.unpaidCreditAmount == c.maxCreditLimit + c.unpaidCreditAmount
    ensures amount <= c.maxCreditLimit ==> r.maxCreditLimit >= 0
  {
    c.(unpaidCreditAmount := c.unpaidCreditAmount + amount,
       maxCreditLimit := c.maxCreditLimit - amount)
  }

  /**
   * Whether a sale request passes the credit step: it asks for no credit, or
   * its customer exists and the amount does not exceed the customer's limit
   * (an amount equal to the limit is accepted).
   */
  predicate CreditApproved(customers: map<Id, Customer>, req: SaleRequest) {
    req.balanceAmount <= 0 ||
    (req.customerId in customers && req.balanceAmount <= customers[req.customerId].maxCreditLimit)
  }

  /** The customers after the credit step of an approved request. */
  function CustomersAfter(customers: map<Id, Customer>, req: SaleRequest): (r: map<Id, Customer>)
    requires CreditApproved(customers, req)
    ensures r.Keys == customers.Keys
    ensures forall id :: id in customers && (id != req.customerId || req.balanceAmount <= 0) ==> r[id] == customers[id]
    ensures req.balanceAmount > 0 ==>
      r[req.customerId].unpaidCreditAmount == customers[req.customerId].unpaidCreditAmount + req.balanceAmount &&
      r[req.customerId].maxCreditLimit == customers[req.customerId].maxCreditLimit - req.balanceAmount
    ensures req.balanceAmount > 0 ==> r[req.customerId] == GrantCredit(customers[req.customerId], req.balanceAmount)
  {
    if req.balanceAmount > 0 then
      customers[req.customerId := GrantCredit(customers[req.customerId], req.balanceAmount)]
    else
      customers
  }

  // ---------------------------------------------------------------------------
  // Stock

  /** Whether every line item names a product of the store. */
  predicate AllProductsKnown(products: map<Id, Product>, items: seq<LineItem>) {
    forall k :: 0 <= k < |items| ==> items[k].productId in products
  }

  /** The store's relative update of one product: its stock falls by `qty`. */
  function DecrementStock(products: map<Id, Product>, productId: Id, qty: int): map<Id, Product>
  {
    if productId in products then
      products[productId := products[productId].(stockQty := products[productId].stockQty - qty)]
    else
      products
  }

  /** The products after the line items' decrements, applied in order. */
  function StockAfter(products: map<Id, Product>, items: seq<LineItem>): (r: map<Id, Product>)
    ensures r.Keys == products.Keys
    decreases |items|
  {
    if items == [] then products
    else
      var last := items[|items| - 1];
      DecrementStock(StockAfter(products, items[..|items| - 1]), last.productId, last.qty)
  }

  /** One more line item applies one more decrement. */
  lemma StockAfterSnoc(products: map<Id, Product>, items: seq<LineItem>, item: LineItem)
    ensures StockAfter(products, items + [item]) == DecrementStock(StockAfter(products, items), item.productId, item.qty)
  {
  }

  /** The total quantity the line items take of one product. */
  function QtyFor(items: seq<LineItem>, productId: Id): int
    decreases |items|
  {
    if items == [] then 0
    else
      var last := items[|items| - 1];
      QtyFor(items[..|items| - 1], productId) + (if last.productId == productId then last.qty else 0)
  }

  /** A product no line item names has a total quantity of zero. */
  lemma {:induction false} QtyForUnreferenced(items: seq<LineItem>, productId: Id)
    requires forall k :: 0 <= k < |items| ==> items[k].productId != productId
    ensures QtyFor(items, productId) == 0
    decreases |items|
  {
    if items != [] {
      QtyForUnreferenced(items[..|items| - 1], productId);
    }
  }

  /**
   * Each product's stock falls by the total quantity the line items take of
   * it, with no lower bound; every other field of the product, and every
   * product no item names, is left as it was.
   */
  lemma {:induction false} StockAfterDelta(products: map<Id, Product>, items: seq<LineItem>, productId: Id)
    requires productId in products
    ensures StockAfter(products, items)[productId] ==
      products[productId].(stockQty := products[productId].stockQty - QtyFor(items, productId))
    ensures (forall k :: 0 <= k < |items| ==> items[k].productId != productId) ==>
      StockAfter(products, items)[productId] == products[productId]
    decreases |items|
  {
    if items != [] {
      StockAfterDelta(products, items[..|items| - 1], productId);
    }
    if forall k :: 0 <= k < |items| ==> items[k].productId != productId {
      QtyForUnreferenced(items, productId);
    }
  }

  /**
   * Nothing keeps stock from going negative: a line asking for more than the
   * shop holds is decremented all the same.
   */
  lemma StockMayGoNegative()
    ensures var products := map["p" := Product("p", "pen", 1)];
            StockAfter(products, [LineItem("p", 2, 10, "pen", "")])["p"].stockQty == -1
  {
  }

  // ---------------------------------------------------------------------------
  // Sales and sale items

  /** The sale record a request creates, with its generated number. */
  function NewSale(id: nat, saleNumber: string, req: SaleRequest): Sale {
    Sale(id, saleNumber, req.customerId, req.customerName, req.customerEmail,
         req.paymentMethod, req.saleAmount, req.saleType, req.balanceAmount,
         req.paidAmount, req.transactionCode, req.shopId)
  }

  /** The sale item row a line item creates for a sale. */
  function ItemRow(id: nat, saleId: nat, item: LineItem): SaleItem {
    SaleItem(id, saleId, item.productId, item.qty, item.productPrice, item.productName, item.productImage)
  }

  /**
   * `after` is `before` followed by one row per line item, in order, each
   * linked to `saleId` and numbered by its position.
   */
  predicate AppendedRows(before: seq<SaleItem>, after: seq<SaleItem>, saleId: nat, items: seq<LineItem>) {
    && |after| == |before| + |items|
    && after[..|before|] == before
    && forall k :: 0 <= k < |items| ==> after[|before| + k] == ItemRow(|before| + k, saleId, items[k])
  }

  /** One more line item adds its row at the end. */
  lemma AppendedRowsSnoc(before: seq<SaleItem>, after: seq<SaleItem>, saleId: nat, items: seq<LineItem>, item: LineItem)
    requires AppendedRows(before, after, saleId, items)
    ensures AppendedRows(before, after + [ItemRow(|after|, saleId, item)], saleId, items + [item])
  {
  }

  /** The number of sale items linked to a sale. */
  function CountLinked(items: seq<SaleItem>, saleId: nat): nat
    decreases |items|
  {
    if items == [] then 0
    else CountLinked(items[..|items| - 1], saleId) + (if items[|items| - 1].saleId == saleId then 1 else 0)
  }

  /** Appending rows that all link to a sale adds exactly their number to its count. */
  lemma {:induction false} CountLinkedAppend(before: seq<SaleItem>, added: seq<SaleItem>, saleId: nat)
    requires forall k :: 0 <= k < |added| ==> added[k].saleId == saleId
    ensures CountLinked(before + added, saleId) == CountLinked(before, saleId) + |added|
    decreases |added|
  {
    if added == [] {
      assert before + added == before;
    } else {
      var prefix := added[..|added| - 1];
      assert (before + added)[..|before + added| - 1] == before + prefix;
      CountLinkedAppend(before, prefix, saleId);
    }
  }

  /**
   * Rows appended for a sale raise its linked count by the number of line
   * items, and keep sale items numbered by position.
   */
  lemma AppendedRowsLinked(before: seq<SaleItem>, after: seq<SaleItem>, saleId: nat, items: seq<LineItem>)
    requires AppendedRows(before, after, saleId, items)
    requires forall k :: 0 <= k < |before| ==> before[k].id == k
    ensures CountLinked(after, saleId) == CountLinked(before, saleId) + |items|
    ensures forall k :: 0 <= k < |after| ==> after[k].id == k
  {
    var added := after[|before|..];
    assert after == before + added;
    forall k | 0 <= k < |added|
      ensures added[k].saleId == saleId
    {
      assert |added| == |items|;
      assert added[k] == after[|before| + k] == ItemRow(|before| + k, saleId, items[k]);
    }
    CountLinkedAppend(before, added, saleId);
    forall k | 0 <= k < |after|
      ensures after[k].id == k
    {
      if k < |before| {
        assert after[k] == after[..|before|][k];
      } else {
        assert after[|before| + (k - |before|)] == ItemRow(k, saleId, items[k - |before|]);
      }
    }
  }

  // ---------------------------------------------------------------------------
  // The store

  class Store {
    var customers: map<Id, Customer>
    var products: map<Id, Product>
    var sales: seq<Sale>
    var saleItems: seq<SaleItem>

    /** Keys match the records' ids; sales and sale items are numbered by position. */
    ghost predicate Valid()
      reads this
    {
      (forall id :: id in customers ==> customers[id].id == id) &&
      (forall id :: id in products ==> products[id].id == id) &&
      (forall k :: 0 <= k < |sales| ==> sales[k].id == k) &&
      (forall k :: 0 <= k < |saleItems| ==> saleItems[k].id == k)
    }

    function State(): StoreState
      reads this
    {
      StoreState(customers, products, sales, saleItems)
    }

    /** A store holding the given customers and products and no sales yet. */
    constructor (customers0: map<Id, Customer>, products0: map<Id, Product>)
      requires forall id :: id in customers0 ==> customers0[id].id == id
      requires forall id :: id in products0 ==> products0[id].id == id
      ensures Valid()
      ensures State() == StoreState(customers0, products0, [], [])
    {
      customers, products, sales, saleItems := customers0, products0, [], [];
    }

    /**
     * Creates a sale from a request, drawing its sale number from `indices`.
     * The outcome is decided by the request and the store alone:
     * NotFound for a credit sale whose customer is missing, Forbidden for
     * credit above the customer's limit, Internal when a line item names a
     * missing product; the store is left unchanged in all three. Otherwise
     * the sale commits: the credit moves, one sale is added, each product's
     * stock falls by its line items' quantities and one sale item per line
     * item is appended, in order, linked to the new sale.
     */
    method CreateSale(req: SaleRequest, indices: seq<nat>) returns (r: Result<nat>)
      requires Valid()
      requires |indices| == |Alphabet| && ValidIndices(indices)
      modifies this
      ensures Valid()
      ensures req.balanceAmount > 0 && req.customerId !in old(customers) ==>
        r == Err(NotFound) && State() == old(State())
      ensures req.balanceAmount > 0 && req.customerId in old(customers) &&
              req.balanceAmount > old(customers)[req.customerId].maxCreditLimit ==>
        r == Err(Forbidden) && State() == old(State())
      ensures CreditApproved(old(customers), req) && !AllProductsKnown(old(products), req.saleItems) ==>
        r == Err(Internal) && State() == old(State())
      ensures r.Ok? <==> CreditApproved(old(customers), req) && AllProductsKnown(old(products), req.saleItems)
      ensures r.Ok? ==>
        && r.value == |old(sales)|
        && sales == old(sales) + [NewSale(r.value, SaleNumberOf(indices), req)]
        && customers == CustomersAfter(old(customers), req)
        && products == StockAfter(old(products), req.saleItems)
        && AppendedRows(old(saleItems), saleItems, r.value, req.saleItems)
        && CountLinked(saleItems, r.value) == CountLinked(old(saleItems), r.value) + |req.saleItems|
    {
      // the snapshot the transaction rolls back to
      var customers0, products0, sales0, items0 := customers, products, sales, saleItems;

      var creditError := ApplyCredit(req);
      if creditError.Some? {
        return Err(creditError.value);
      }

      var saleNumber := GenerateSaleNumber(indices);
      var saleId := |sales|;
      sales := sales + [NewSale(saleId, saleNumber, req)];

      var ok := ApplyLineItems(saleId, req.saleItems);
      if !ok {
        // a product update threw, and the transaction rolls back
        customers, products, sales, saleItems := customers0, products0, sales0, items0;
        return Err(Internal);
      }
      forall id | id in products
        ensures products[id].id == id
      {
        StockAfterDelta(products0, req.saleItems, id);
      }
      r := Ok(saleId);
    }

    /**
     * The credit step of a sale. A request with a positive balance needs an
     * existing customer (NotFound otherwise) whose limit is at least the
     * balance (Forbidden otherwise); then the balance moves from the
     * customer's limit to its unpaid amount. A request with no positive
     * balance leaves the customers alone. Nothing is written on a refusal.
     */
    method ApplyCredit(req: SaleRequest) returns (error: Option<ErrorKind>)
      requires forall id :: id in customers ==> customers[id].id == id
      modifies this
      ensures products == old(products) && sales == old(sales) && saleItems == old(saleItems)
      ensures forall id :: id in customers ==> customers[id].id == id
      ensures req.balanceAmount > 0 && req.customerId !in old(customers) ==> error == Some(NotFound)
      ensures req.balanceAmount > 0 && req.customerId in old(customers) &&
              req.balanceAmount > old(customers)[req.customerId].maxCreditLimit
              ==> error == Some(Forbidden)
      ensures error == None <==> CreditApproved(old(customers), req)
      ensures error.Some? ==> customers == old(customers)
      ensures error == None ==> customers == CustomersAfter(old(customers), req)
    {
      if req.balanceAmount > 0 {
        if req.customerId !in customers {
          return Some(NotFound);
        }
        var existing := customers[req.customerId];
        if req.balanceAmount > existing.maxCreditLimit {
          return Some(Forbidden);
        }
        customers := customers[req.customerId := GrantCredit(existing, req.balanceAmount)];
      }
      error := None;
    }

    /**
     * The line-item loop of a sale: for each item in order, decrements its
     * product's stock and appends a sale item linked to `saleId`. It stops
     * with `false` at the first item whose product is missing (where the
     * store's update throws), having written the items before it; the caller
     * rolls those writes back.
     */
    method ApplyLineItems(saleId: nat, items: seq<LineItem>) returns (ok: bool)
      requires forall k :: 0 <= k < |saleItems| ==> saleItems[k].id == k
      modifies this
      ensures customers == old(customers) && sales == old(sales)
      ensures ok <==> AllProductsKnown(old(products), items)
      ensures ok ==>
        && products == StockAfter(old(products), items)
        && AppendedRows(old(saleItems), saleItems, saleId, items)
        && (forall k :: 0 <= k < |saleItems| ==> saleItems[k].id == k)
        && CountLinked(saleItems, saleId) == CountLinked(old(saleItems), saleId) + |items|
    {
      var products0, items0 := products, saleItems;
      var i := 0;
      while i < |items|
        invariant 0 <= i <= |items|
        invariant customers == old(customers) && sales == old(sales)
        invariant AllProductsKnown(products0, items[..i])
        invariant products == StockAfter(products0, items[..i])
        invariant AppendedRows(items0, saleItems, saleId, items[..i])
      {
        var item := items[i];
        if item.productId !in products {
          assert items[i].productId !in products0;
          return false;
        }
        assert items[..i + 1] == items[..i] + [item];
        StockAfterSnoc(products0, items[..i], item);
        AppendedRowsSnoc(items0, saleItems, saleId, items[..i], item);
        products := DecrementStock(products, item.productId, item.qty);
        saleItems := saleItems + [ItemRow(|saleItems|, saleId, item)];
        i := i + 1;
      }
      assert items[..i] == items;
      AppendedRowsLinked(items0, saleItems, saleId, items);
      ok := true;
    }

    /**
     * Creates one sale item outside any transaction: the named product's
     * stock falls by `qty` and one row is appended. The sale id is not
     * checked. A missing product fails before anything is written.
     */
    method CreateSaleItem(saleId: nat, item: LineItem) returns (r: Result<SaleItem>)
      requires Valid()
      modifies this
      ensures Valid()
      ensures item.productId !in old(products) ==> r == Err(Internal) && State() == old(State())
      ensures item.productId in old(products) ==>
        && r == Ok(ItemRow(|old(saleItems)|, saleId, item))
        && products == old(products)[item.productId :=
             old(products)[item.productId].(stockQty := old(products)[item.productId].stockQty - item.qty)]
        && saleItems == old(saleItems) + [r.value]
        && customers == old(customers)
        && sales == old(sales)
    {
      if item.productId !in products {
        return Err(Internal);
      }
      products := DecrementStock(products, item.productId, item.qty);
      var row := ItemRow(|saleItems|, saleId, item);
      saleItems := saleItems + [row];
      r := Ok(row);
    }
  }
}
