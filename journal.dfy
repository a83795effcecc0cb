/** Balances read back from the entry journal: the ledger's two lists agree with each other. */
module Journal {
  import opened Accounts
  import opened Totals

  /** What saving e does to its party's balance: a purchase adds amount − paid,
      a payment subtracts paid and ignores amount. */
  function Effect(e: Entry): real
  {
    if e.isPurchase then e.amount - e.paid else -e.paid
  }

  /** The sum of the effects of the entries in es recorded against name. */
  function Replay(es: seq<Entry>, name: string): real
  {
    if es == [] then 0.0
    else (if es[0].party == name then Effect(es[0]) else 0.0) + Replay(es[1..], name)
  }

  /** No two parties share a name. */
  predicate UniqueNames(ps: seq<Party>)
  {
    forall i, j | 0 <= i < j < |ps| :: ps[i].name != ps[j].name
  }

  /** Every party's balance is the replay of the journal for its name. */
  predicate BalancesMatch(ps: seq<Party>, es: seq<Entry>)
  {
    forall i | 0 <= i < |ps| :: ps[i].balance == Replay(es, ps[i].name)
  }

  /** The sum of the effects of the entries in es recorded against a party listed in ps. */
  function ListedEffect(ps: seq<Party>, es: seq<Entry>): real
  {
    if es == [] then 0.0
    else (if Listed(ps, es[0].party) then Effect(es[0]) else 0.0) + ListedEffect(ps, es[1..])
  }

  /** The sum over the parties of ps of the replay of es for their names. */
  function ReplayAll(ps: seq<Party>, es: seq<Entry>): real
  {
    if ps == [] then 0.0 else Replay(es, ps[0].name) + ReplayAll(ps[1..], es)
  }

  lemma ReplayPrepend(e: Entry, es: seq<Entry>, name: string)
    ensures Replay([e] + es, name) == (if e.party == name then Effect(e) else 0.0) + Replay(es, name)
  {
  }

  /** With unique names, saving e and crediting Effect(e) to the first party called e.party keeps
      every balance equal to the replay of the journal that now starts with e. */
  lemma JournalStep(ps: seq<Party>, es: seq<Entry>, e: Entry)
    requires UniqueNames(ps) && BalancesMatch(ps, es)
    ensures UniqueNames(Adjust(ps, e.party, Effect(e)))
    ensures BalancesMatch(Adjust(ps, e.party, Effect(e)), [e] + es)
  {
  }

  lemma {:induction false} ReplayAllEmpty(ps: seq<Party>)
    ensures ReplayAll(ps, []) == 0.0
  {
    if ps != [] {
      ReplayAllEmpty(ps[1..]);
    }
  }

  lemma {:induction false} ReplayAllPrepend(ps: seq<Party>, e: Entry, es: seq<Entry>)
    requires UniqueNames(ps)
    ensures ReplayAll(ps, [e] + es) == (if Listed(ps, e.party) then Effect(e) else 0.0) + ReplayAll(ps, es)
  {
    if ps != [] {
      ReplayPrepend(e, es, ps[0].name);
      ReplayAllPrepend(ps[1..], e, es);
      if ps[0].name == e.party {
        assert !Listed(ps[1..], e.party) by {
          forall i | 0 <= i < |ps[1..]| ensures ps[1..][i].name != e.party {
            assert ps[1..][i] == ps[i + 1];
          }
        }
      } else {
        assert Listed(ps, e.party) <==> Listed(ps[1..], e.party) by {
          if Listed(ps, e.party) {
            var i :| 0 <= i < |ps| && ps[i].name == e.party;
            assert ps[1..][i - 1] == ps[i];
          }
        }
      }
    }
  }

  lemma {:induction false} ReplayAllIsListedEffect(ps: seq<Party>, es: seq<Entry>)
    requires UniqueNames(ps)
    ensures ReplayAll(ps, es) == ListedEffect(ps, es)
  {
    if es == [] {
      ReplayAllEmpty(ps);
    } else {
      assert es == [es[0]] + es[1..];
      ReplayAllPrepend(ps, es[0], es[1..]);
      ReplayAllIsListedEffect(ps, es[1..]);
    }
  }

  lemma {:induction false} OutstandingIsReplayAll(ps: seq<Party>, es: seq<Entry>)
    requires BalancesMatch(ps, es)
    ensures TotalOutstanding(ps) == ReplayAll(ps, es)
  {
    if ps != [] {
      OutstandingIsReplayAll(ps[1..], es);
    }
  }

  /** With unique names and balances that match the journal, total outstanding is the sum of the
      effects of all entries recorded against listed parties. */
  lemma OutstandingFromJournal(ps: seq<Party>, es: seq<Entry>)
    requires UniqueNames(ps) && BalancesMatch(ps, es)
    ensures TotalOutstanding(ps) == ListedEffect(ps, es)
  {
    OutstandingIsReplayAll(ps, es);
    ReplayAllIsListedEffect(ps, es);
  }
}
