# Sale creation in an inventory-management backend

This project models the sale-creation workflow of a point-of-sale backend in
Dafny, and proves properties of it. The backend serves a multi-shop retail
store: customers buy on cash or on credit, products carry a stock quantity,
and every sale is recorded together with one sale item per line.

The database becomes an in-memory store (`SalesStore.Store`). It holds a map
of customers by id, a map of products by id, a list of sales and a list of
sale items. The modelled operations are:

- **`createSale`** (`SalesStore.Store.CreateSale`) runs as one transaction,
  in this order:
  - The credit step (`ApplyCredit`). A request with a positive balance needs
    an existing customer. A missing customer gives NotFound (404). A balance
    above the customer's `maxCreditLimit` gives Forbidden (403). Otherwise
    the balance moves from `maxCreditLimit` to `unpaidCreditAmount`.
  - A new sale is created with a generated sale number.
  - The line-item loop (`ApplyLineItems`) decrements each item's product
    stock by its `qty` and appends a sale item linked to the sale.
  - A missing product makes the store's update fail. The transaction then
    rolls back every write, and the outcome is Internal (500).
- **`createSaleItem`** (`Store.CreateSaleItem`) is one stock decrement and
  one appended sale item, outside any transaction.
- **`categorizeSales`** comes in two variants: the all-shops report
  (`SalesReports.CategorizeShopsSales`) and the single-shop report
  (`SalesReports.CategorizeShopSales`). Each splits a list of sales into
  cash, credit, mobile-money and hand-cash buckets.
- **`generateSaleNumber`** (`SaleNumber.GenerateSaleNumber`) draws 58
  characters from a fixed 58-character alphabet. The random source is
  modelled as the sequence of indices it draws.

Modules: `SaleTypes` (the records, from `src/types/types.ts`), `SaleNumber`,
`SalesStore`, `SalesReports`, and `SaleScenarios` (concrete runs proved from
the store's contracts alone).

Behaviour of the code worth knowing, which the model keeps:

- The code does not check that the stock covers a line's `qty`, so the model
  lets stock go negative (`StockMayGoNegative`).
- Nothing checks that a generated sale number is new, so the model accepts
  duplicate sale numbers (`DuplicateSaleNumberScenario`).
- The two report variants disagree with each other:
  - The single-shop report counts a sale as credit only when it is paid in
    `CASH`.
  - The single-shop report looks for mobile money spelt `"MOBILE MONEY"`,
    while the all-shops report uses `"MOBILEMONEY"`. So a `"MOBILEMONEY"`
    sale never lands in the single-shop mobile-money bucket.

Payment method and sale type are modelled as strings, because the code
compares them as strings. The database schema that declares their
enumerations is not part of this model.

Several definitions are the reference definitions behind the rows below, and
carry no row of their own: `SalesStore.CreditApproved` (the credit decision,
`salesController.ts:77-97`), `SalesStore.DecrementStock` (the relative stock
decrement, `:142-151` and `:217-224`), `SalesStore.NewSale` (the sale record,
`:123-137`), `SalesStore.ItemRow` (the sale-item record, `:166-175`),
`SalesStore.StockAfter` and `SalesStore.AppendedRows` (the effect of the
whole line-item loop), and `SaleNumber.SaleNumberOf` (the number a sequence
of draws spells, `generateSaleNumber.ts:4-8`).

## Model

| member | source | states |
|---|---|---|
| `SaleNumber.GenerateSaleNumber` | src/utils/generateSaleNumber.ts:1-10 | the loop yields exactly 58 characters (the alphabet's length), character k being the alphabet entry at the k-th drawn index; the result equals `SaleNumberOf(indices)` |
| `SaleNumber.AlphabetChars` | src/utils/generateSaleNumber.ts:2-3 | every character of the alphabet is a lower-case `a`..`y` or a digit, and none is `z` |
| `SaleNumber.SaleNumberCharset` | src/utils/generateSaleNumber.ts:2-8 | a sale number has one character per draw, each a lower-case `a`..`y` or a digit; `z` and upper-case letters never occur |
| `SaleNumber.DifferentDrawsSameNumber` | src/utils/generateSaleNumber.ts:2-8 | sale numbers are not unique even across different draws: all-0 and all-35 index sequences spell the same number, because the alphabet repeats `a`..`w` |
| `SalesStore.GrantCredit` | src/controller/salesController.ts:101-112 | a credit grant raises `unpaidCreditAmount` by the amount and keeps `maxCreditLimit + unpaidCreditAmount` unchanged; an amount within the limit leaves the limit non-negative; id and name stay the same |
| `SalesStore.CustomersAfter` | src/controller/salesController.ts:77-112 | an approved credit step touches only the sale's customer: the same keys, every other customer unchanged, and with a positive balance that customer becomes its `GrantCredit` by the balance (unpaid amount up and limit down by exactly the balance, sum, id and name kept); with no positive balance nothing changes |
| `SalesStore.StockAfterDelta` | src/controller/salesController.ts:140-151 | after a sale, each product's stock has fallen by the total `qty` of the line items naming it, with no lower bound; its other fields, and any product no item names, are unchanged |
| `SalesStore.StockMayGoNegative` | src/controller/salesController.ts:142-151 | no sufficiency check: a line of 2 against a stock of 1 leaves the stock at -1 |
| `SalesStore.CountLinkedAppend` | src/controller/salesController.ts:166-175 | appending rows that all carry a sale's id raises that sale's linked-item count by exactly their number |
| `SalesStore.AppendedRowsLinked` | src/controller/salesController.ts:166-175 | the rows a sale appends raise its linked-item count by the number of line items, and keep sale items numbered by position |
| `SalesStore.Store.ApplyCredit` | src/controller/salesController.ts:77-122 | credit step: NotFound for a credit sale without a customer, Forbidden for credit above the limit (a balance equal to the limit passes), no write on refusal; otherwise the customers become `CustomersAfter`; products, sales and sale items are untouched |
| `SalesStore.Store.ApplyLineItems` | src/controller/salesController.ts:139-189 | the loop succeeds exactly when every line item's product exists; then the stock is `StockAfter` the items, one row per item is appended in input order with that item's product, qty, price, name and image and the sale's id, and the sale's linked count rises by the number of items |
| `SalesStore.Store.CreateSale` | src/controller/salesController.ts:59-210 | NotFound, Forbidden and Internal (a line item naming a missing product) each leave customers, products, sales and sale items exactly as before; success happens exactly when credit is approved and all products exist, and then one sale is appended whose id is returned, credit moves as in `CustomersAfter`, stock as in `StockAfter`, and the appended sale items are one per line item, in order, linked to the new sale |
| `SalesStore.Store.CreateSaleItem` | src/controller/salesController.ts:212-244 | a missing product fails with nothing written; otherwise that product's stock falls by `qty`, exactly one row with the given fields is appended and returned, and customers and sales are unchanged |
| `SalesReports.Filter` | src/controller/salesController.ts:279-288 | a bucket holds exactly the input sales that satisfy its condition, and is no longer than the input |
| `SalesReports.FilterConcat` | src/controller/salesController.ts:279-288 | filtering preserves order: the filter of a concatenation is the concatenation of the filters |
| `SalesReports.CategorizeShopsSales` | src/controller/salesController.ts:276-290 | all-shops report: the total is the input; cash holds the `CASH` sales with balance <= 0; credit holds every sale with balance > 0; mobile money holds the `"MOBILEMONEY"` sales; hand cash equals cash |
| `SalesReports.CategorizeShopSales` | src/controller/salesController.ts:398-414 | single-shop report: as above, except that credit holds only `CASH` sales with balance > 0, and mobile money holds `"MOBILE MONEY"` sales, so never a `"MOBILEMONEY"` one |
| `SalesReports.ShopsCashCreditDisjoint` | src/controller/salesController.ts:279-282 | in the all-shops report no sale is both cash and credit, and the two buckets together are no longer than the input |
| `SalesReports.ShopCashSplit` | src/controller/salesController.ts:401-406 | in the single-shop report the cash and credit buckets together are exactly as long as the list of `CASH` sales |
| `SalesReports.ShopCreditRefinesShopsCredit` | src/controller/salesController.ts:404-406 | the single-shop credit bucket is the all-shops credit bucket with the non-`CASH` sales removed, order kept |
| `SaleScenarios.CreditAboveLimitScenario` | src/controller/salesController.ts:92-97 | a limit of 100 and a balance of 150 give Forbidden; the customer, the stock and the sales are unchanged |
| `SaleScenarios.CreditSaleScenario` | src/controller/salesController.ts:77-191 | a limit of 100, a balance of 50 and one line of 2 against a stock of 10 give a committed sale: limit 50, unpaid 50, stock 8, one sale item of quantity 2 linked to the sale |
| `SaleScenarios.UnknownProductScenario` | src/controller/salesController.ts:140-151 | a sale whose second line names a missing product gives Internal; no sale and no sale item exist, and the first line's product keeps its stock |
| `SaleScenarios.DuplicateSaleNumberScenario` | src/controller/salesController.ts:123-137 | two sales whose draws spell the same number both commit, so the store holds two sales with one sale number |

## Left out

- `SalesStore.Store.CreateSale`: the store never refuses the creation of the sale itself. In the source, `paymentMethod` and `saleType` are database enumerations (`src/types/types.ts:1,10-11`), so a value outside them makes `sale.create` (`salesController.ts:123-137`) throw, which rolls the transaction back and gives 500 (`:207-208`). The model has no enumeration check and no uniqueness constraint on `saleNumber`. Its `Ok` if-and-only-if (credit approved and every product known) and `DuplicateSaleNumberScenario` both rest on that assumption.
- Request and response plumbing is left out. The source returns an HTTP response object from inside the transaction callback for a missing customer (`salesController.ts:86`) and for credit above the limit (`:93`). The model gives these an error outcome with no write. It does not model what the handler does after such a return: it looks the response object up as a sale id and attempts a second response.
- The checks `!updatedCustomer`, `!updatedProduct` and `!saleItem` (`:114-121`, `:153-163`, `:177-187`) are left out. The store's update and create either return a record or throw, so these branches never run.
- The re-read of the sale with its items after commit (`:194-201`) is left out. The outcome carries the new sale's id, and the contracts say which sale-item rows belong to it.
- Reading sales for a time window (`:248-274`, `:372-377`, `:416-454`) is left out, because it depends on the clock and the calendar. Only the categorisation of a list already read is modelled. The plain reads `getSales` and `getSale` (`:17-57`) are left out too.
- `Math.random` and `Math.floor` are floating point. They are replaced by a sequence of drawn indices, each below 58.
- Transaction isolation and concurrent sales against the same rows are left out. The store is sequential, and its transaction is all-or-nothing.
- Monetary amounts and quantities are numbers in the source. The model uses unbounded integers, so fractional amounts and floating-point rounding are not modelled.
- `createSaleItem` does not check that its sale id exists. Whether the database refuses an item for a missing sale depends on the schema, which is not part of this model. The model accepts such an item.
- A missing `saleItems` list is treated as an empty list, which matches the source's `saleItems && saleItems.length > 0` guard.
- Customer and product records carry only the fields this workflow reads or writes, plus a name.
- The CRUD controllers for the other entities, authentication, tokens, e-mail templates, rate limiting, object-id validation and routing are not part of this model.
