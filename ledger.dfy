/** The expense ledger: the records `add_expense` appends to `self.expenses`. */
module Ledger {

  /** One expense record, the dict `{amount, category, date, time}`. */
  datatype Expense = Expense(amount: real, category: string, date: string, time: string)

  /** The column names a frame built from these records carries, in dict-key order. */
  const Columns: seq<string> := ["amount", "category", "date", "time"]

  /** The categories that occur in a ledger. */
  ghost function Recorded(ledger: seq<Expense>): set<string>
  {
    set e | e in ledger :: e.category
  }

  /** The amounts of the records filed under category `c`, added up; the reference sum. */
  function CategoryTotal(ledger: seq<Expense>, c: string): real
  {
    if ledger == [] then 0.0
    else
      var last := ledger[|ledger| - 1];
      CategoryTotal(ledger[..|ledger| - 1], c) + (if last.category == c then last.amount else 0.0)
  }

  /** A category that does not occur adds up to zero. */
  lemma {:induction false} CategoryTotalAbsent(ledger: seq<Expense>, c: string)
    requires c !in Recorded(ledger)
    ensures CategoryTotal(ledger, c) == 0.0
  {
    if ledger != [] {
      var init := ledger[..|ledger| - 1];
      assert forall e :: e in init ==> e in ledger;
      CategoryTotalAbsent(init, c);
    }
  }

  /** Recorded categories of a ledger with one more record at the end. */
  lemma RecordedSnoc(ledger: seq<Expense>, e: Expense)
    ensures Recorded(ledger + [e]) == Recorded(ledger) + {e.category}
  {
    var s := ledger + [e];
    forall x | x in s ensures x in ledger || x == e {
      var k :| 0 <= k < |s| && s[k] == x;
      if k < |ledger| { assert x == ledger[k]; }
    }
  }
}
