/** The two records of the shop's ledger and the lookup-and-update the save handlers perform on parties. */
module Accounts {
  import opened Wrappers

  /** A supplier. Its name identifies it; its balance is what the shop currently owes it. */
  datatype Party = Party(name: string, balance: real)

  /** One saved form: a purchase from (isPurchase) or a payment to (!isPurchase) the named party.
      `date` is the wall-clock time in milliseconds at which it was saved. */
  datatype Entry = Entry(id: int, date: int, party: string, amount: real, paid: real, isPurchase: bool)

  /** The number an amount field contributes: its parsed value, or 0 when the text does not parse. */
  function OrZero(input: Option<real>): real
  {
    match input
    case Some(x) => x
    case None => 0.0
  }

  /** Some party in ps is called name. */
  predicate Listed(ps: seq<Party>, name: string)
  {
    exists i | 0 <= i < |ps| :: ps[i].name == name
  }

  /** k is the position of the first party in ps called name. */
  predicate IsFirstMatch(ps: seq<Party>, name: string, k: int)
  {
    0 <= k < |ps| && ps[k].name == name && forall j | 0 <= j < k :: ps[j].name != name
  }

  /** The party that `parties.find { it.name == name }` returns, as its position in the list. */
  function FindFirst(ps: seq<Party>, name: string): (r: Option<nat>)
    ensures r.Some? ==> IsFirstMatch(ps, name, r.value)
    ensures r.None? ==> forall i | 0 <= i < |ps| :: ps[i].name != name
  {
    if ps == [] then None
    else if ps[0].name == name then Some(0)
    else match FindFirst(ps[1..], name)
      case None => None
      case Some(k) => Some(k + 1)
  }

  /** The party list after `parties.find { it.name == name }?.balance = … .balance + delta`. */
  function Adjust(ps: seq<Party>, name: string, delta: real): seq<Party>
  {
    match FindFirst(ps, name)
    case None => ps
    case Some(k) => ps[k := ps[k].(balance := ps[k].balance + delta)]
  }

  /** What Adjust does: the first party called name is credited with delta and every other party
      is left as it was; the list keeps its length, order and names; without a party of that name
      the safe call skips the assignment and nothing changes. */
  lemma AdjustEffect(ps: seq<Party>, name: string, delta: real)
    ensures |Adjust(ps, name, delta)| == |ps|
    ensures forall i | 0 <= i < |ps| :: Adjust(ps, name, delta)[i].name == ps[i].name
    ensures !Listed(ps, name) ==> Adjust(ps, name, delta) == ps
    ensures forall k | IsFirstMatch(ps, name, k) ::
      Adjust(ps, name, delta)[k].balance == ps[k].balance + delta &&
      forall i | 0 <= i < |ps| && i != k :: Adjust(ps, name, delta)[i] == ps[i]
  {
  }
}
