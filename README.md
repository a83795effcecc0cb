# RK Vegetable Shop supplier ledger, in Dafny

The app keeps a small in-memory ledger on one screen (`AppScreen` in `MainActivity.kt`). The ledger has two lists:

- the **parties**: suppliers, each a name and a running balance (what the shop owes it). The list starts as "Default Supplier" and "Local Market Supplier", both owed 0.
- the **entries**: one per saved form, newest first. An entry holds an id, a timestamp, the party name, the amount, the amount paid now, and whether it is a purchase.

Two buttons change the ledger:

- **Save Purchase** puts a purchase entry at the front and adds `amount − paid` to the balance of the first party with the selected name.
- **Save Payment** puts a payment entry at the front and subtracts only `paid`. The amount is stored in the entry but moves no balance. The model keeps this asymmetry as the code has it.

In both cases the new id is the old entry count plus one. A field that does not parse as a number counts as 0. When no party has the selected name, the safe call `?.` skips the assignment: no balance changes, but the entry is still recorded.

The summary card shows two figures:

- **total outstanding**: the sum of all balances;
- **"total sales"**: the sum of `amount` over the entries that are *not* purchases, which are the payments. The label says sales; the code sums payments, and the model sums what the code sums.

Layout of the project:

- `wrappers.dfy` (`Wrappers`): `Option`, the outcome of parsing a text field.
- `accounts.dfy` (`Accounts`):
  - the `Party` and `Entry` records;
  - `OrZero`, the `?: 0.0` default for an unparseable field;
  - `FindFirst`, which models `find`;
  - `Adjust`, which models `find { … }?.balance = … + delta`.
- `totals.dfy` (`Totals`): `TotalOutstanding`, `Payments` (the filter), `SumAmounts` and `TotalSales`, with lemmas on how saves move them.
- `journal.dfy` (`Journal`): an independent reference for the balances. `Replay` sums each entry's effect on its party (`Effect`). The lemmas show three things:
  - a save keeps every balance equal to the replay of the journal;
  - this holds as long as names are unique;
  - total outstanding is then the sum of the effects of all entries against listed parties.
- `shop.dfy` (`Shop`): the `Ledger` class. Its fields `parties: seq<Party>` and `entries: seq<Entry>` are reassigned by the two save methods.
  - `Valid()` is the invariant every reachable state keeps: names are unique, ids count down from the front, and balances match the journal.
  - `SaveStep` is the value-level lemma the two methods rest on.
  - `WorkedExample` is a client. It records a purchase of 100 with 40 paid and asserts a balance of 60. It records a payment of 20 and asserts 40. It records a save against an unlisted name and asserts that no balance moved.

Amounts are Dafny `real`s, so arithmetic is exact. The clock reading and the parsed field values are parameters of the save methods. The selected party name is a parameter as well; in the app it comes from the dropdown.

Entries go to the front of the list (`add(0, …)` at line 139 and line 162 of `MainActivity.kt`).

Party names are unique only because of the two seeded names; the code does not enforce uniqueness. `find` returns the first match, so `Adjust` updates only the *first* party with the name. Uniqueness is proved as part of `Ledger.Valid()`, holding from the initial state onward; it is not assumed for every list.

## Model

| member | source | states |
|---|---|---|
| Accounts.FindFirst | app/app/src/main/app/src/main/java/com/rk/vegetableshop/MainActivity.kt:144 | the result is the position of the first party with the name, none before it has that name; with no result, no party has the name |
| Accounts.AdjustEffect | app/app/src/main/app/src/main/java/com/rk/vegetableshop/MainActivity.kt:144-145 | after the find-and-assign, only the first party with the name has its balance moved by delta; every other party is unchanged; length, order and names are kept; with no such party the list is unchanged |
| Totals.Payments | app/app/src/main/app/src/main/java/com/rk/vegetableshop/MainActivity.kt:72 | the filter keeps exactly the non-purchase entries, each as often as it occurs in the input: no purchase survives, every payment does, nothing new appears, the list does not grow |
| Totals.PaymentsConcat | app/app/src/main/app/src/main/java/com/rk/vegetableshop/MainActivity.kt:72 | filtering a joined list joins the filtered parts, so the filter keeps the entries' order |
| Totals.OutstandingAfterReplace | app/app/src/main/app/src/main/java/com/rk/vegetableshop/MainActivity.kt:71 | replacing one party moves the sum of balances by the difference of the two balances |
| Totals.AdjustOutstanding | app/app/src/main/app/src/main/java/com/rk/vegetableshop/MainActivity.kt:71 | crediting delta to a listed party raises total outstanding by exactly delta; for an unlisted name the total is unchanged |
| Totals.TotalSalesConcat | app/app/src/main/app/src/main/java/com/rk/vegetableshop/MainActivity.kt:72 | total sales of two entry lists joined is the sum of their totals |
| Totals.TotalSalesPrepend | app/app/src/main/app/src/main/java/com/rk/vegetableshop/MainActivity.kt:72 | a new purchase entry leaves total sales unchanged; a new payment entry raises it by its amount |
| Journal.JournalStep | app/app/src/main/app/src/main/java/com/rk/vegetableshop/MainActivity.kt:139-145 | with unique names, a save keeps every balance equal to the sum of that party's entry effects, and the names stay unique |
| Journal.OutstandingFromJournal | app/app/src/main/app/src/main/java/com/rk/vegetableshop/MainActivity.kt:71 | with unique names and balances matching the journal, total outstanding equals the sum of the effects of the entries against listed parties |
| Shop.IdsStep | app/app/src/main/app/src/main/java/com/rk/vegetableshop/MainActivity.kt:137 | an entry with id old-count + 1 put at the front keeps ids counting down from the front |
| Shop.IdsDistinct | app/app/src/main/app/src/main/java/com/rk/vegetableshop/MainActivity.kt:137 | ids that count down lie between 1 and the entry count and are pairwise distinct |
| Shop.SaveStep | app/app/src/main/app/src/main/java/com/rk/vegetableshop/MainActivity.kt:137-145 | one save moves total outstanding by the entry's effect when its party is listed, moves total sales by the entry's sale value, and keeps the ledger consistent |
| Shop.Ledger.constructor | app/app/src/main/app/src/main/java/com/rk/vegetableshop/MainActivity.kt:47-56 | the ledger starts with the two seeded suppliers at balance 0 and no entries, and is consistent |
| Shop.Ledger.RecordPurchase | app/app/src/main/app/src/main/java/com/rk/vegetableshop/MainActivity.kt:133-150 | one purchase entry with id old-count + 1, the given party, and amount and paid read through OrZero (an unparseable field counts as 0, lines 135-136) is put before the old entries; parties become Adjust(old, selected, amount − paid); total outstanding rises by amount − paid for a listed party; nothing changes for an unlisted one; total sales is unchanged; consistency is kept |
| Shop.Ledger.RecordPayment | app/app/src/main/app/src/main/java/com/rk/vegetableshop/MainActivity.kt:156-175 | one payment entry with id old-count + 1, the given party, and amount and paid read through OrZero (an unparseable field counts as 0, lines 158-159) is put before the old entries; parties become Adjust(old, selected, −paid), so the amount moves no balance; total outstanding falls by paid for a listed party; total sales rises by the amount; consistency is kept |

## Left out

- The Compose user interface is not modelled: layout, cards, lists, the dropdown, the text fields, the form toggle and the clearing of the fields after a save.
- `MainActivity.onCreate` and `setContent` are not modelled; they are Android framework glue.
- Number parsing (`toDoubleOrNull`) is a library routine. Only its outcome is modelled, as `Option<real>`.
- Display formatting (`String.format("%.2f", …)`) is a library call and is not modelled.
- The clock (`System.currentTimeMillis()`) becomes the `now` parameter.
- `Double` arithmetic is modelled as exact `real` arithmetic. IEEE-754 rounding, NaN and infinities are not modelled.
- The `Long` id is an unbounded `int`. `entries.size + 1L` cannot overflow, because a list size is at most 2^31 − 1.
- `remember`/`mutableStateOf` and recomposition are not modelled; only the state they hold is.
- The in-place assignment of `Party.balance` is not modelled as such. `Party` is a mutable object in the app; the model makes it a value, and the save methods replace the list element instead. Nothing else holds a reference to a `Party`, so no aliasing is lost.
