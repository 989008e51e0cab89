/**
 * The session state of the expense tracker window and the three actions
 * that use it: adding an expense, building the per-category report, and
 * preparing the spreadsheet export.
 */
module Tracker {

  import opened Wrappers
  import opened Seqs
  import opened PyStr
  import opened PyDict
  import opened Ledger
  import opened Aggregation

  /** The choice that asks for a custom category name. */
  const Others: string := "Others"

  /** The category choices the selector starts with. */
  const Presets: seq<string> := ["Food", "Travel", "Utilities", "Entertainment", "Others"]

  /**
   * The category a record is filed under: the selected choice verbatim,
   * except that `Others` stands for the stripped custom text, and an
   * all-whitespace custom text gives no category at all.
   */
  function EffectiveCategory(selected: string, customText: string): (r: Option<string>)
    ensures selected != Others ==> r == Some(selected)
    ensures selected == Others ==> (r.None? <==> AllSpace(customText))
    ensures selected == Others && r.Some? ==> r.value == Strip(customText) && r.value != []
  {
    if selected != Others then Some(selected)
    else
      var custom := Strip(customText);
      if custom == [] then None else Some(custom)
  }

  /**
   * The choices after offering `c`: appended at the end when absent, the
   * list untouched when present. Existing entries keep their order and no
   * duplicate is introduced.
   */
  function WithChoice(choices: seq<string>, c: string): (r: seq<string>)
    ensures c in r
    ensures choices <= r
    ensures |r| == if c in choices then |choices| else |choices| + 1
    ensures forall x :: x in r <==> x in choices || x == c
    ensures Distinct(choices) ==> Distinct(r)
  {
    if c in choices then choices else choices + [c]
  }

  /** How an attempt to add an expense ends. */
  datatype AddOutcome =
    | Added
    | InvalidAmount          // the amount text is not a number
    | MissingCustomCategory  // `Others` chosen with an all-whitespace custom name

  /** The data of the pie chart: labels and their amounts, position by position. */
  datatype Report = Report(labels: seq<string>, amounts: seq<real>)

  /** How the save action ends. */
  datatype SaveOutcome =
    | NothingToSave
    | SaveCancelled
    | Saved(path: string, columns: seq<string>, rows: seq<Expense>)

  class ExpenseTracker {
    /** The ledger, in insertion order. */
    var expenses: seq<Expense>
    /** The items of the category selector, in display order. */
    var categories: seq<string>

    /** The selector never lists a choice twice and always starts with the presets. */
    ghost predicate Valid()
      reads this
    {
      Distinct(categories) && Presets <= categories
    }

    /** Every category filed in the ledger can be chosen again from the selector. */
    ghost predicate Reselectable()
      reads this
    {
      forall e :: e in expenses ==> e.category in categories
    }

    constructor ()
      ensures Valid() && Reselectable()
      ensures expenses == [] && categories == Presets
    {
      expenses := [];
      categories := Presets;
    }

    /**
     * The "Add Expense" action. `amount` is the parsed amount text (`None`
     * when it is not a number); `selected` is the selector's current
     * text; `date` and `time` are the displayed stamps.
     */
    method AddExpense(amount: Option<real>, selected: string, customText: string, date: string, time: string)
      returns (outcome: AddOutcome)
      requires Valid()
      modifies this
      ensures Valid()
      ensures old(expenses) <= expenses && old(categories) <= categories
      ensures amount.None? ==> outcome == InvalidAmount
      ensures amount.Some? && selected == Others && AllSpace(customText) ==> outcome == MissingCustomCategory
      ensures outcome == Added <==> amount.Some? && EffectiveCategory(selected, customText).Some?
      ensures outcome != Added ==> expenses == old(expenses) && categories == old(categories)
      ensures outcome == Added ==>
        var category := EffectiveCategory(selected, customText).value;
        && expenses == old(expenses) + [Expense(amount.value, category, date, time)]
        && categories == if selected == Others then WithChoice(old(categories), category) else old(categories)
      ensures selected in old(categories) && old(Reselectable()) ==> Reselectable()
    {
      if amount.None? {
        return InvalidAmount;
      }
      var category := selected;
      if category == Others {
        var custom := Strip(customText);
        if custom == [] {
          return MissingCustomCategory;
        }
        category := custom;
        if custom !in categories {
          categories := categories + [custom];
        }
      }
      expenses := expenses + [Expense(amount.value, category, date, time)];
      outcome := Added;
    }

    /**
     * The "Generate Report" action: the per-category totals as chart data,
     * or `None` (no chart) when there is nothing to report.
     */
    method GenerateReport() returns (report: Option<Report>)
      ensures report == ChartOf(expenses)
      ensures report.None? <==> expenses == []
    {
      var ledger := expenses;
      var totals := Empty<string, real>();
      assert ledger[..0] == [];
      for n := 0 to |ledger|
        invariant totals == Totals(ledger[..n])
      {
        assert ledger[..n + 1][..n] == ledger[..n];
        totals := Accumulate(totals, ledger[n]);
      }
      assert ledger[..|ledger|] == ledger;
      if totals.keys == [] {
        return None;
      }
      report := Some(Report(totals.keys, totals.Values()));
    }

    /**
     * The "Save as Excel" action up to the file write. `path` is what the
     * save dialog returns, empty when it is cancelled; the dialog is only
     * shown when there are records.
     */
    method SaveAsExcel(path: string) returns (result: SaveOutcome)
      ensures expenses == [] ==> result == NothingToSave
      ensures expenses != [] && path == [] ==> result == SaveCancelled
      ensures expenses != [] && path != [] ==> result == Saved(path, Columns, expenses)
    {
      if expenses == [] {
        return NothingToSave;
      }
      if path == [] {
        return SaveCancelled;
      }
      result := Saved(path, Columns, expenses);
    }
  }

  /**
   * The chart a ledger gives: none for an empty ledger; otherwise one
   * label per category that occurs, each once, in first-occurrence order,
   * with the sum of that category's amounts beside it.
   */
  function ChartOf(ledger: seq<Expense>): (r: Option<Report>)
    ensures r.None? <==> ledger == []
    ensures r.Some? ==>
      && r.value.labels == Totals(ledger).keys
      && (forall c :: c in r.value.labels <==> c in Recorded(ledger))
      && Distinct(r.value.labels)
      && FirstOccurrenceOrdered(r.value.labels, ledger)
      && |r.value.amounts| == |r.value.labels|
      && (forall i :: 0 <= i < |r.value.labels| ==> r.value.amounts[i] == CategoryTotal(ledger, r.value.labels[i]))
  {
    var t := Totals(ledger);
    TotalsEmpty(ledger);
    if t.keys == [] then None
    else
      TotalsKeys(ledger);
      TotalsValues(ledger);
      TotalsFirstOccurrenceOrder(ledger);
      Some(Report(t.keys, t.Values()))
  }

  /** A session: a rejected amount, one expense, a rejected blank custom name, then the report. */
  method SessionWalkthrough()
  {
    var t := new ExpenseTracker();
    var o := t.AddExpense(None, "Food", "", "14/10/2026", "09:00:00");
    assert o == InvalidAmount && t.expenses == [] && t.categories == Presets;
    var r := t.GenerateReport();
    assert r == None;
    o := t.AddExpense(Some(100.0), "Food", "", "14/10/2026", "09:00:01");
    assert o == Added && |t.expenses| == 1 && t.expenses[0].category == "Food";
    assert AllSpace("  ");
    o := t.AddExpense(Some(5.0), Others, "  ", "14/10/2026", "09:00:02");
    assert o == MissingCustomCategory && |t.expenses| == 1 && t.categories == Presets;
    r := t.GenerateReport();
    assert r.Some?;
  }

  /** Records of 100 and 50 under Food and 30 under Travel total Food 150 and Travel 30, in that order. */
  lemma ExampleTotals()
    ensures var ledger := [Expense(100.0, "Food", "", ""), Expense(50.0, "Food", "", ""), Expense(30.0, "Travel", "", "")];
      Totals(ledger) == Dict(["Food", "Travel"], map["Food" := 150.0, "Travel" := 30.0])
  {
    var a, b, c := Expense(100.0, "Food", "", ""), Expense(50.0, "Food", "", ""), Expense(30.0, "Travel", "", "");
    assert [a, b, c][..2] == [a, b] && [a, b][..1] == [a] && [a][..0] == [];
    assert Totals([a]) == Dict(["Food"], map["Food" := 100.0]);
    assert Totals([a, b]) == Dict(["Food"], map["Food" := 150.0]);
  }

  /** Choosing `Others` with a padded name files the record under the name and offers it as a choice. */
  method CustomCategoryWalkthrough()
  {
    var t := new ExpenseTracker();
    StripPadded();
    assert "Gifts" !in Presets;
    var o := t.AddExpense(Some(20.0), Others, " Gifts ", "14/10/2026", "09:00:05");
    assert o == Added && t.expenses[0].category == "Gifts";
    assert t.categories == Presets + ["Gifts"];
  }
}
