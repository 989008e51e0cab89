/**
 * The fold at the start of `generate_report`: each record adds its amount
 * to the running total of its category, in a dict whose keys keep the
 * order in which categories first occur in the ledger.
 */
module Aggregation {

  import opened PyDict
  import opened Ledger

  /** `categories[c] = categories.get(c, 0) + amount` for one record. */
  function Accumulate(t: Dict<string, real>, e: Expense): (r: Dict<string, real>)
    ensures t.Valid() ==> r.Valid()
    ensures e.category in r.entries
  {
    t.Set(e.category, t.Get(e.category, 0.0) + e.amount)
  }

  /** The dict the loop holds after visiting every record of `ledger` in order. */
  function Totals(ledger: seq<Expense>): (t: Dict<string, real>)
    ensures t.Valid()
  {
    if ledger == [] then Empty()
    else Accumulate(Totals(ledger[..|ledger| - 1]), ledger[|ledger| - 1])
  }

  /** The keys are exactly the categories that occur in the ledger. */
  lemma {:induction false} TotalsKeys(ledger: seq<Expense>)
    ensures forall c :: c in Totals(ledger).keys <==> c in Recorded(ledger)
  {
    if ledger != [] {
      var init, e := ledger[..|ledger| - 1], ledger[|ledger| - 1];
      assert ledger == init + [e];
      TotalsKeys(init);
      RecordedSnoc(init, e);
    }
  }

  /** Each key is bound to the sum of the amounts of the records in its category. */
  lemma {:induction false} TotalsValues(ledger: seq<Expense>)
    ensures forall c :: c in Totals(ledger).entries ==> Totals(ledger).entries[c] == CategoryTotal(ledger, c)
  {
    if ledger != [] {
      var init, e := ledger[..|ledger| - 1], ledger[|ledger| - 1];
      assert ledger == init + [e];
      TotalsValues(init);
      TotalsKeys(init);
      if e.category !in Totals(init).entries {
        CategoryTotalAbsent(init, e.category);
      }
    }
  }

  /**
   * `keys` lists categories in first-occurrence order within `ledger`:
   * wherever a record of the `j`-th key's category stands, some record of
   * the `i`-th key's category (`i < j`) stands before it.
   */
  ghost predicate FirstOccurrenceOrdered(keys: seq<string>, ledger: seq<Expense>)
  {
    forall i, j, q :: 0 <= i < j < |keys| && 0 <= q < |ledger| && ledger[q].category == keys[j] ==>
      keys[i] in Recorded(ledger[..q])
  }

  /** The keys of the totals come in first-occurrence order. */
  lemma {:induction false} TotalsFirstOccurrenceOrder(ledger: seq<Expense>)
    ensures FirstOccurrenceOrdered(Totals(ledger).keys, ledger)
  {
    if ledger != [] {
      var init, e := ledger[..|ledger| - 1], ledger[|ledger| - 1];
      assert ledger == init + [e];
      TotalsFirstOccurrenceOrder(init);
      TotalsKeys(init);
      var before := Totals(init).keys;
      var keys := Totals(ledger).keys;
      assert keys == if e.category in before then before else before + [e.category];
      forall i, j, q | 0 <= i < j < |keys| && 0 <= q < |ledger| && ledger[q].category == keys[j]
        ensures keys[i] in Recorded(ledger[..q])
      {
        OrderStep(init, e, before, keys, i, j, q);
      }
    }
  }

  /** The inductive step of the first-occurrence order, for one pair of keys and one position. */
  lemma OrderStep(init: seq<Expense>, e: Expense, before: seq<string>, keys: seq<string>, i: nat, j: nat, q: nat)
    requires forall c :: c in before <==> c in Recorded(init)
    requires FirstOccurrenceOrdered(before, init)
    requires keys == if e.category in before then before else before + [e.category]
    requires i < j < |keys| && q <= |init| && (init + [e])[q].category == keys[j]
    ensures keys[i] in Recorded((init + [e])[..q])
  {
    var ledger := init + [e];
    assert keys[i] == before[i];
    if q < |init| {
      assert ledger[..q] == init[..q] && init[q] == ledger[q];
      assert init[q] in init;
      assert j < |before|;
      assert keys[j] == before[j];
      assert before[i] in Recorded(init[..q]);
    } else {
      assert ledger[..q] == init;
    }
  }

  /** No records, no keys: the empty-dict test at the report's guard. */
  lemma TotalsEmpty(ledger: seq<Expense>)
    ensures Totals(ledger).keys == [] <==> ledger == []
  {
    if ledger != [] {
      var t := Totals(ledger);
      assert ledger[|ledger| - 1].category in t.keys;
    }
  }
}
