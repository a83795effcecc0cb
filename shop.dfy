/** The ledger state of the app's screen and its two save handlers. */
module Shop {
  import opened Wrappers
  import opened Accounts
  import opened Totals
  import opened Journal

  const DefaultSupplier: string := "Default Supplier"
  const LocalMarketSupplier: string := "Local Market Supplier"

  /** The entries carry ids |entries|, |entries| − 1, …, 1 from the front: the newest has the largest id. */
  predicate IdsCountDown(es: seq<Entry>)
  {
    forall i | 0 <= i < |es| :: es[i].id == |es| - i
  }

  /** Prepending an entry whose id is one more than the old count keeps the ids counting down. */
  lemma IdsStep(e: Entry, es: seq<Entry>)
    requires IdsCountDown(es) && e.id == |es| + 1
    ensures IdsCountDown([e] + es)
  {
  }

  /** Counting-down ids are positive and pairwise distinct. */
  lemma IdsDistinct(es: seq<Entry>)
    requires IdsCountDown(es)
    ensures forall i | 0 <= i < |es| :: 1 <= es[i].id <= |es|
    ensures forall i, j | 0 <= i < j < |es| :: es[i].id != es[j].id
  {
  }

  /** What every reachable state satisfies: names are unique, ids count down, and each balance
      is the replay of the journal for its party. */
  predicate Consistent(ps: seq<Party>, es: seq<Entry>)
  {
    UniqueNames(ps) && IdsCountDown(es) && BalancesMatch(ps, es)
  }

  /** One save, on values: when ps' and es' are ps and es after prepending e (with the next id)
      and crediting Effect(e) to the first party called e.party, total outstanding moves by
      Effect(e) if that party is listed, total sales moves by e's sale value, and consistency
      is kept. */
  lemma SaveStep(ps: seq<Party>, es: seq<Entry>, e: Entry, ps': seq<Party>, es': seq<Entry>)
    requires e.id == |es| + 1
    requires ps' == Adjust(ps, e.party, Effect(e)) && es' == [e] + es
    ensures Listed(ps, e.party) ==> TotalOutstanding(ps') == TotalOutstanding(ps) + Effect(e)
    ensures TotalSales(es') == TotalSales(es) + SaleValue(e)
    ensures Consistent(ps, es) ==> Consistent(ps', es')
  {
    AdjustOutstanding(ps, e.party, Effect(e));
    TotalSalesPrepend(e, es);
    if Consistent(ps, es) {
      IdsStep(e, es);
      JournalStep(ps, es, e);
    }
  }

  /** The screen's two lists: the suppliers with their balances, and the saved entries, newest first. */
  class Ledger {
    var parties: seq<Party>
    var entries: seq<Entry>

    /** The object invariant: the two lists are consistent. */
    ghost predicate Valid()
      reads this
    {
      Consistent(parties, entries)
    }

    /** The screen's initial state: the two seeded suppliers, owed nothing, and no entries. */
    constructor ()
      ensures parties == [Party(DefaultSupplier, 0.0), Party(LocalMarketSupplier, 0.0)]
      ensures entries == []
      ensures Valid()
    {
      parties := [Party(DefaultSupplier, 0.0), Party(LocalMarketSupplier, 0.0)];
      entries := [];
    }

    /** Save Purchase: prepend a purchase entry with the next id, then credit amount − paid to the
        first party called selected, if there is one. */
    method RecordPurchase(selected: string, amountInput: Option<real>, paidInput: Option<real>, now: int)
      modifies this
      ensures entries == [Entry(|old(entries)| + 1, now, selected, OrZero(amountInput), OrZero(paidInput), true)] + old(entries)
      ensures parties == Adjust(old(parties), selected, OrZero(amountInput) - OrZero(paidInput))
      ensures Listed(old(parties), selected) ==>
        TotalOutstanding(parties) == old(TotalOutstanding(parties)) + (OrZero(amountInput) - OrZero(paidInput))
      ensures !Listed(old(parties), selected) ==> parties == old(parties)
      ensures TotalSales(entries) == old(TotalSales(entries))
      ensures old(Valid()) ==> Valid()
    {
      ghost var parties0, entries0 := parties, entries;
      var a := OrZero(amountInput);
      var p := OrZero(paidInput);
      var id := |entries| + 1;
      var e := Entry(id, now, selected, a, p, true);
      entries := [e] + entries;
      var found := FindFirst(parties, selected);
      if found.Some? {
        var k := found.value;
        parties := parties[k := parties[k].(balance := parties[k].balance + (a - p))];
      }
      assert Effect(e) == a - p;
      assert parties == Adjust(parties0, selected, a - p);
      SaveStep(parties0, entries0, e, parties, entries);
    }

    /** Save Payment: prepend a payment entry with the next id, then subtract paid from the first
        party called selected, if there is one. The amount is recorded but moves no balance. */
    method RecordPayment(selected: string, amountInput: Option<real>, paidInput: Option<real>, now: int)
      modifies this
      ensures entries == [Entry(|old(entries)| + 1, now, selected, OrZero(amountInput), OrZero(paidInput), false)] + old(entries)
      ensures parties == Adjust(old(parties), selected, -OrZero(paidInput))
      ensures Listed(old(parties), selected) ==>
        TotalOutstanding(parties) == old(TotalOutstanding(parties)) - OrZero(paidInput)
      ensures !Listed(old(parties), selected) ==> parties == old(parties)
      ensures TotalSales(entries) == old(TotalSales(entries)) + OrZero(amountInput)
      ensures old(Valid()) ==> Valid()
    {
      ghost var parties0, entries0 := parties, entries;
      var a := OrZero(amountInput);
      var p := OrZero(paidInput);
      var id := |entries| + 1;
      var e := Entry(id, now, selected, a, p, false);
      entries := [e] + entries;
      var found := FindFirst(parties, selected);
      if found.Some? {
        var k := found.value;
        parties := parties[k := parties[k].(balance := parties[k].balance - p)];
      }
      assert Effect(e) == -p;
      assert parties == Adjust(parties0, selected, -p);
      SaveStep(parties0, entries0, e, parties, entries);
    }
  }

  /** A worked example: a purchase of 100 with 40 paid leaves 60 owed to the supplier, a later
      payment of 20 (with an amount field that does not parse) leaves 40 and records no sales,
      and a save against a name that is not listed moves no balance but is still recorded. */
  method WorkedExample()
  {
    var ledger := new Ledger();
    ledger.RecordPurchase(DefaultSupplier, Some(100.0), Some(40.0), 1000);
    assert IsFirstMatch([Party(DefaultSupplier, 0.0), Party(LocalMarketSupplier, 0.0)], DefaultSupplier, 0);
    assert ledger.parties[0].balance == 60.0;
    var before := ledger.parties;
    ledger.RecordPayment(DefaultSupplier, None, Some(20.0), 2000);
    assert IsFirstMatch(before, DefaultSupplier, 0);
    assert ledger.parties[0].balance == 40.0 && ledger.parties[1].balance == 0.0;
    assert ledger.parties == [Party(DefaultSupplier, 40.0), Party(LocalMarketSupplier, 0.0)];
    assert TotalOutstanding(ledger.parties) == 40.0 by {
      assert ledger.parties[1..][1..] == [];
      assert TotalOutstanding(ledger.parties[1..]) == 0.0;
    }
    assert TotalSales(ledger.entries) == 0.0;
    before := ledger.parties;
    var stranger := "Unknown Supplier";
    assert stranger[0] != DefaultSupplier[0] && stranger[0] != LocalMarketSupplier[0];
    ledger.RecordPurchase(stranger, Some(5.0), None, 3000);
    assert ledger.parties == before;
    assert |ledger.entries| == 3 && ledger.entries[0].id == 3 && ledger.entries[0].party == stranger;
    assert ledger.Valid();
  }
}
