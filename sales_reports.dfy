/**
 * Sales reporting: the categorisation of an already-fetched list of sales
 * into buckets by payment method and outstanding balance. Two variants
 * exist: the report over all shops and the report for a single shop; they
 * differ in the credit bucket and in the spelling of the mobile-money method.
 */
module SalesReports {
  import opened SaleTypes

  /** The sales that satisfy `p`, in their original order. */
  function Filter(s: seq<Sale>, p: Sale -> bool): (r: seq<Sale>)
    ensures |r| <= |s|
    ensures forall x :: x in r <==> x in s && p(x)
    decreases |s|
  {
    if s == [] then []
    else
      var last := s[|s| - 1];
      Filter(s[..|s| - 1], p) + (if p(last) then [last] else [])
  }

  /** Filtering keeps order: a filtered concatenation is the concatenation of the filtered parts. */
  lemma {:induction false} FilterConcat(a: seq<Sale>, b: seq<Sale>, p: Sale -> bool)
    ensures Filter(a + b, p) == Filter(a, p) + Filter(b, p)
    decreases |b|
  {
    if b == [] {
      assert a + b == a;
    } else {
      var init := b[..|b| - 1];
      assert (a + b)[..|a + b| - 1] == a + init;
      FilterConcat(a, init, p);
    }
  }

  /** Two filters whose conditions never hold together pick at most all the elements between them. */
  lemma {:induction false} FilterDisjointCount(s: seq<Sale>, p: Sale -> bool, q: Sale -> bool)
    requires forall x :: !(p(x) && q(x))
    ensures |Filter(s, p)| + |Filter(s, q)| <= |s|
    decreases |s|
  {
    if s != [] {
      FilterDisjointCount(s[..|s| - 1], p, q);
    }
  }

  const Cash: string := "CASH"
  const MobileMoney: string := "MOBILEMONEY"
  /** The spelling the single-shop report compares with. */
  const MobileMoneySpaced: string := "MOBILE MONEY"

  predicate PaidInCash(sale: Sale) { sale.paymentMethod == Cash }

  /** A cash sale with nothing left owing. */
  predicate SettledInCash(sale: Sale) { sale.paymentMethod == Cash && sale.balanceAmount <= 0 }

  /** A sale that leaves a balance owing, whatever its payment method. */
  predicate OnCredit(sale: Sale) { sale.balanceAmount > 0 }

  /** A cash sale that leaves a balance owing. */
  predicate CashOnCredit(sale: Sale) { sale.paymentMethod == Cash && sale.balanceAmount > 0 }

  predicate ByMobileMoney(sale: Sale) { sale.paymentMethod == MobileMoney }

  predicate ByMobileMoneySpaced(sale: Sale) { sale.paymentMethod == MobileMoneySpaced }

  /** The buckets a report gives for one time period. */
  datatype SalesReport = SalesReport(
    totalSales: seq<Sale>,
    salesPaidInCash: seq<Sale>,
    salesPaidInCredit: seq<Sale>,
    salesByMobileMoney: seq<Sale>,
    salesByHandCash: seq<Sale>)

  /**
   * The report over all shops: every sale in the total; settled cash sales
   * in the cash and hand-cash buckets (the same list); every sale with a
   * balance owing in the credit bucket; "MOBILEMONEY" sales in the
   * mobile-money bucket.
   */
  function CategorizeShopsSales(sales: seq<Sale>): (r: SalesReport)
    ensures r.totalSales == sales
    ensures r.salesByHandCash == r.salesPaidInCash
    ensures forall x :: x in r.salesPaidInCash <==> x in sales && x.paymentMethod == Cash && x.balanceAmount <= 0
    ensures forall x :: x in r.salesPaidInCredit <==> x in sales && x.balanceAmount > 0
    ensures forall x :: x in r.salesByMobileMoney <==> x in sales && x.paymentMethod == MobileMoney
  {
    SalesReport(
      sales,
      Filter(sales, SettledInCash),
      Filter(sales, OnCredit),
      Filter(sales, ByMobileMoney),
      Filter(sales, SettledInCash))
  }

  /**
   * The report for one shop: as the all-shops report, except that only cash
   * sales count as credit, and mobile money is matched as "MOBILE MONEY",
   * so a "MOBILEMONEY" sale is never in its mobile-money bucket.
   */
  function CategorizeShopSales(sales: seq<Sale>): (r: SalesReport)
    ensures r.totalSales == sales
    ensures r.salesByHandCash == r.salesPaidInCash
    ensures forall x :: x in r.salesPaidInCash <==> x in sales && x.paymentMethod == Cash && x.balanceAmount <= 0
    ensures forall x :: x in r.salesPaidInCredit <==> x in sales && x.paymentMethod == Cash && x.balanceAmount > 0
    ensures forall x :: x in r.salesByMobileMoney <==> x in sales && x.paymentMethod == MobileMoneySpaced
    ensures forall x :: x in r.salesByMobileMoney ==> x.paymentMethod != MobileMoney
  {
    SalesReport(
      sales,
      Filter(sales, SettledInCash),
      Filter(sales, CashOnCredit),
      Filter(sales, ByMobileMoneySpaced),
      Filter(sales, SettledInCash))
  }

  /** In the all-shops report no sale is both in the cash and in the credit bucket. */
  lemma ShopsCashCreditDisjoint(sales: seq<Sale>)
    ensures var r := CategorizeShopsSales(sales);
            (forall x :: x in r.salesPaidInCash ==> x !in r.salesPaidInCredit) &&
            |r.salesPaidInCash| + |r.salesPaidInCredit| <= |sales|
  {
    FilterDisjointCount(sales, SettledInCash, OnCredit);
  }

  /**
   * The single-shop cash and credit buckets split the cash sales: their sizes
   * add up to the number of cash sales.
   */
  lemma {:induction false} ShopCashSplit(sales: seq<Sale>)
    ensures var r := CategorizeShopSales(sales);
            |r.salesPaidInCash| + |r.salesPaidInCredit| == |Filter(sales, PaidInCash)|
    decreases |sales|
  {
    if sales != [] {
      ShopCashSplit(sales[..|sales| - 1]);
    }
  }

  /**
   * The single-shop credit bucket is the all-shops credit bucket with the
   * non-cash sales taken out, in the same order.
   */
  lemma {:induction false} ShopCreditRefinesShopsCredit(sales: seq<Sale>)
    ensures CategorizeShopSales(sales).salesPaidInCredit ==
            Filter(CategorizeShopsSales(sales).salesPaidInCredit, PaidInCash)
    decreases |sales|
  {
    if sales != [] {
      var init := sales[..|sales| - 1];
      var last := sales[|sales| - 1];
      ShopCreditRefinesShopsCredit(init);
      FilterConcat(Filter(init, OnCredit), if OnCredit(last) then [last] else [], PaidInCash);
    }
  }
}
