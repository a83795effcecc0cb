/** The two aggregates shown on the summary card. */
module Totals {
  import opened Accounts

  /** `parties.sumOf { it.balance }`: what the shop owes all its suppliers together. */
  function TotalOutstanding(ps: seq<Party>): real
  {
    if ps == [] then 0.0 else ps[0].balance + TotalOutstanding(ps[1..])
  }

  /** `entries.filter { !it.isPurchase }`: the payment entries, in their order. */
  function Payments(es: seq<Entry>): (r: seq<Entry>)
    ensures |r| <= |es|
    ensures forall i | 0 <= i < |r| :: !r[i].isPurchase
    ensures forall e | e in es && !e.isPurchase :: e in r
    ensures forall e | e in r :: e in es
    ensures forall e :: multiset(r)[e] == if e.isPurchase then 0 else multiset(es)[e]
  {
    if es == [] then []
    else
      assert es == [es[0]] + es[1..];
      if es[0].isPurchase then Payments(es[1..]) else [es[0]] + Payments(es[1..])
  }

  /** `sumOf { it.amount }` over a list of entries. */
  function SumAmounts(es: seq<Entry>): real
  {
    if es == [] then 0.0 else es[0].amount + SumAmounts(es[1..])
  }

  /** The "Total Sales Recorded" figure: the amounts of the payment entries. */
  function TotalSales(es: seq<Entry>): real
  {
    SumAmounts(Payments(es))
  }

  /** What one entry adds to TotalSales: its amount for a payment, nothing for a purchase. */
  function SaleValue(e: Entry): real
  {
    if e.isPurchase then 0.0 else e.amount
  }

  /** Replacing one party changes the total by the difference of the two balances. */
  lemma {:induction false} OutstandingAfterReplace(ps: seq<Party>, k: int, q: Party)
    requires 0 <= k < |ps|
    ensures TotalOutstanding(ps[k := q]) == TotalOutstanding(ps) - ps[k].balance + q.balance
  {
    if k == 0 {
      assert ps[k := q][1..] == ps[1..];
    } else {
      assert ps[k := q][1..] == ps[1..][k - 1 := q];
      OutstandingAfterReplace(ps[1..], k - 1, q);
    }
  }

  /** Crediting the first party called name with delta raises the total by delta when such a
      party exists, and leaves it unchanged otherwise. */
  lemma AdjustOutstanding(ps: seq<Party>, name: string, delta: real)
    ensures Listed(ps, name) ==> TotalOutstanding(Adjust(ps, name, delta)) == TotalOutstanding(ps) + delta
    ensures !Listed(ps, name) ==> TotalOutstanding(Adjust(ps, name, delta)) == TotalOutstanding(ps)
  {
    match FindFirst(ps, name)
    case None =>
    case Some(k) =>
      OutstandingAfterReplace(ps, k, ps[k].(balance := ps[k].balance + delta));
  }

  lemma {:induction false} SumAmountsConcat(xs: seq<Entry>, ys: seq<Entry>)
    ensures SumAmounts(xs + ys) == SumAmounts(xs) + SumAmounts(ys)
  {
    if xs == [] {
      assert xs + ys == ys;
    } else {
      assert (xs + ys)[1..] == xs[1..] + ys;
      SumAmountsConcat(xs[1..], ys);
    }
  }

  /** The filter works entry by entry and keeps the order: filtering a joined list joins the
      filtered parts. */
  lemma {:induction false} PaymentsConcat(xs: seq<Entry>, ys: seq<Entry>)
    ensures Payments(xs + ys) == Payments(xs) + Payments(ys)
  {
    if xs == [] {
      assert xs + ys == ys;
    } else {
      assert (xs + ys)[1..] == xs[1..] + ys;
      PaymentsConcat(xs[1..], ys);
    }
  }

  /** Total sales is additive over the entry list. */
  lemma TotalSalesConcat(xs: seq<Entry>, ys: seq<Entry>)
    ensures TotalSales(xs + ys) == TotalSales(xs) + TotalSales(ys)
  {
    PaymentsConcat(xs, ys);
    SumAmountsConcat(Payments(xs), Payments(ys));
  }

  /** Prepending one entry raises total sales by its amount if it is a payment, and not at all
      if it is a purchase. */
  lemma TotalSalesPrepend(e: Entry, es: seq<Entry>)
    ensures TotalSales([e] + es) == SaleValue(e) + TotalSales(es)
    ensures e.isPurchase ==> TotalSales([e] + es) == TotalSales(es)
    ensures !e.isPurchase ==> TotalSales([e] + es) == TotalSales(es) + e.amount
  {
  }
}
