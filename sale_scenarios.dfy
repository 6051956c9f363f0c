/**
 * Concrete runs of the sale-creation workflow, proved from the contracts of
 * `Store.CreateSale` alone: a credit sale that is denied, one that commits,
 * a sale naming an unknown product, and two sales that receive the same
 * sale number.
 */
module SaleScenarios {
  import opened SaleTypes
  import opened SaleNumber
  import opened SalesStore

  function Draws(index: nat): (indices: seq<nat>)
    requires index < |Alphabet|
    ensures |indices| == |Alphabet| && ValidIndices(indices)
  {
    seq(|Alphabet|, k => index)
  }

  function CreditRequest(balance: int, items: seq<LineItem>): SaleRequest {
    SaleRequest("c1", "Ada", "ada@example.com", 200, balance, 200 - balance,
                "CREDIT", "CASH", "", items, "s1")
  }

  /**
   * A customer with a limit of 100 asks for 150 of credit: the sale is
   * refused as Forbidden and the customer, the stock and the sales stay as
   * they were.
   */
  method CreditAboveLimitScenario() returns (outcome: Result<nat>, customer: Customer, stock: int, saleCount: nat)
    ensures outcome == Err(Forbidden)
    ensures customer == Customer("c1", "Ada", 100, 0)
    ensures stock == 10 && saleCount == 0
  {
    var store := new Store(map["c1" := Customer("c1", "Ada", 100, 0)],
                           map["p1" := Product("p1", "pen", 10)]);
    outcome := store.CreateSale(CreditRequest(150, [LineItem("p1", 2, 50, "pen", "")]), Draws(0));
    customer := store.customers["c1"];
    stock := store.products["p1"].stockQty;
    saleCount := |store.sales|;
  }

  /**
   * A customer with a limit of 100 buys two units of a product holding 10,
   * on 50 of credit: the sale commits, the limit falls to 50, the unpaid
   * amount rises to 50, the stock falls to 8 and exactly one sale item,
   * of quantity 2, is linked to the sale.
   */
  method CreditSaleScenario() returns (outcome: Result<nat>, customer: Customer, stock: int, items: seq<SaleItem>)
    ensures outcome == Ok(0)
    ensures customer.maxCreditLimit == 50 && customer.unpaidCreditAmount == 50
    ensures stock == 8
    ensures |items| == 1 && items[0].saleId == 0 && items[0].productId == "p1" && items[0].qty == 2
  {
    var store := new Store(map["c1" := Customer("c1", "Ada", 100, 0)],
                           map["p1" := Product("p1", "pen", 10)]);
    var line := LineItem("p1", 2, 50, "pen", "");
    outcome := store.CreateSale(CreditRequest(50, [line]), Draws(0));
    StockAfterDelta(map["p1" := Product("p1", "pen", 10)], [line], "p1");
    assert [line][..0] == [];
    customer := store.customers["c1"];
    stock := store.products["p1"].stockQty;
    items := store.saleItems;
  }

  /**
   * A sale naming a product the store does not hold is rolled back: no sale,
   * no sale item, and the stock of the product it did name is untouched.
   */
  method UnknownProductScenario() returns (outcome: Result<nat>, stock: int, saleCount: nat, itemCount: nat)
    ensures outcome == Err(Internal)
    ensures stock == 10 && saleCount == 0 && itemCount == 0
  {
    var store := new Store(map[], map["p1" := Product("p1", "pen", 10)]);
    var lines := [LineItem("p1", 2, 50, "pen", ""), LineItem("p2", 1, 30, "cup", "")];
    assert lines[1].productId !in store.products;
    outcome := store.CreateSale(CreditRequest(0, lines), Draws(0));
    stock := store.products["p1"].stockQty;
    saleCount := |store.sales|;
    itemCount := |store.saleItems|;
  }

  /**
   * Nothing checks that a sale number is new: two sales whose draws spell
   * the same number both commit, and the store then holds two sales with
   * one number.
   */
  method DuplicateSaleNumberScenario() returns (first: Sale, second: Sale)
    ensures first.id != second.id
    ensures first.saleNumber == second.saleNumber
  {
    var store := new Store(map[], map[]);
    var req := CreditRequest(0, []);
    var r1 := store.CreateSale(req, Draws(0));
    var r2 := store.CreateSale(req, Draws(35));
    DifferentDrawsSameNumber();
    first, second := store.sales[0], store.sales[1];
  }
}
