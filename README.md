# Expense tracker session model

A Dafny model of the session logic inside the expense tracker window
(`tracker_2.py`). The window keeps two pieces of state: the ledger of
expense records, and the list of category choices in the category
selector. The model covers the three actions that use that state:

- **Add Expense.** The amount text is parsed first, and the add is
  rejected when it is not a number. The effective category is then
  resolved. Choosing `Others` takes the stripped custom name; an
  all-whitespace custom name is rejected; a custom name not yet offered
  is appended to the choices. Finally one record stamped with the
  displayed date and time is appended to the ledger.
- **Generate Report.** The ledger is folded into a category → total
  dict. Its keys keep the order in which each category first occurs,
  as a Python dict does. An empty result produces no chart.
- **Save as Excel.** With an empty ledger nothing happens. Otherwise
  the records go to the chosen file, unless the dialog is cancelled.

Files, one module each:

- `wrappers.dfy`: `Option`, used for the parsed amount and for the report.
- `seqs.dfy`: `Distinct`, "no element twice".
- `pystr.dfy`: Python's `str.strip()` and `str.isspace()`.
- `pydict.dfy`: an insertion-ordered dict with `get`, item assignment
  and `values()`.
- `ledger.dfy`: the expense record, the set of categories that occur
  in a ledger, and `CategoryTotal`. `CategoryTotal` sums one category's
  amounts and is the reference the totals are checked against.
- `aggregation.dfy`: the fold `Totals` and the lemmas about its keys,
  its sums and its key order.
- `tracker.dfy`: the `ExpenseTracker` class with fields `expenses` and
  `categories`, plus the specification functions its methods are
  proved against.

Abstractions:

- `float(text)` is an input of type `Option<real>`: `None` stands for
  the `ValueError` branch.
- Amounts are exact reals.
- The displayed date and time are string inputs.
- The selector's current text is the `selected` input.
- The save dialog's answer is the `path` input. An empty path means
  the dialog was cancelled, following the truthiness test on
  `file_path`.

Two points where the model follows the code rather than what the
window's labels suggest:

- Amounts are not checked for sign. Zero and negative amounts are
  accepted.
- The exported columns are the record's dict keys `amount`,
  `category`, `date`, `time`, in that order, in lower case. The table
  headers `Amount`, `Category`, `Date`, `Time` are display only.

## Model

| member | source | states |
|---|---|---|
| `PyStr.LeadingSpaces` | tracker_2.py:109 | The count is the length of the longest all-whitespace prefix: every character before it is whitespace and the one at it is not. |
| `PyStr.TrailingSpaces` | tracker_2.py:109 | The count is the length of the longest all-whitespace suffix, defined the same way from the end. |
| `PyStr.Strip` | tracker_2.py:109-110 | The stripped text is a slice of the input with only whitespace on either side of it. It neither starts nor ends with whitespace. It is empty exactly when the input is all whitespace, which is the condition that `not custom_category` tests. |
| `PyStr.StripPadded` | tracker_2.py:109 | `" Gifts "` strips to `"Gifts"`. |
| `PyDict.Empty` | tracker_2.py:155 | `{}` is a well-formed dict with no keys. |
| `PyDict.Dict.Get` | tracker_2.py:158 | `d.get(k, default)`: the bound value when `k` is a key, the default otherwise. |
| `PyDict.Dict.Set` | tracker_2.py:158 | Item assignment keeps the dict well formed and binds the key to the value. A present key keeps its position; a new key goes last. |
| `PyDict.Dict.Values` | tracker_2.py:165 | `values()` lists one value per key, in key order. |
| `Aggregation.Accumulate` | tracker_2.py:157-158 | Adding one record keeps the dict well formed, and the record's category becomes a key. |
| `Aggregation.Totals` | tracker_2.py:155-158 | The dict the loop ends with is well formed: each key is listed once and the listed keys are exactly the keys of the map. |
| `Aggregation.TotalsKeys` | tracker_2.py:155-158 | The keys are exactly the categories that occur in the ledger. |
| `Aggregation.TotalsValues` | tracker_2.py:155-158 | Each key is bound to the sum of the amounts of the records in its category, as `CategoryTotal` computes it independently. |
| `Aggregation.TotalsFirstOccurrenceOrder` | tracker_2.py:155-158 | The keys are in first-occurrence order: for `i < j`, every record of the `j`-th key's category comes after some record of the `i`-th key's category. |
| `Aggregation.TotalsEmpty` | tracker_2.py:155-162 | The dict has no keys exactly when the ledger is empty, so the `if not categories` guard fires only then. |
| `Tracker.EffectiveCategory` | tracker_2.py:105-113 | Any choice other than `Others` is used verbatim. `Others` gives the stripped custom name, which is non-empty. It gives no category exactly when the custom text is all whitespace. |
| `Tracker.WithChoice` | tracker_2.py:116-117 | After a custom name is offered it is among the choices. The old choices remain a prefix in their order. The list grows by exactly one when the name was absent and is unchanged when it was present. No duplicate is introduced. |
| `Tracker.ExpenseTracker.constructor` | tracker_2.py:29-30 | A new session has an empty ledger and the five preset choices, and the session invariant holds. |
| `Tracker.ExpenseTracker.AddExpense` | tracker_2.py:101-139 | The amount is checked first. An unparsable amount gives `InvalidAmount` and changes nothing. `Others` with an all-whitespace name gives `MissingCustomCategory` and changes nothing. Otherwise exactly one record is appended: the new last record holds the amount, the effective category and the given date and time, and earlier records are untouched. The choices change only for `Others`, through `WithChoice`; for any other choice they stay the same. In every case the ledger and the choices only grow. The choices stay duplicate-free with the presets first. When the selected text is one of the choices (always so for the window's non-editable selector, tracker_2.py:29-30, 105), a ledger whose categories can all be selected again keeps that property. |
| `Tracker.ChartOf` | tracker_2.py:155-165 | There is no chart exactly for an empty ledger. Otherwise there is one label per occurring category, each listed once, in first-occurrence order, and beside each label the sum of that category's amounts. |
| `Tracker.ExpenseTracker.GenerateReport` | tracker_2.py:153-165 | The loop computes `ChartOf` of the ledger. A loop invariant ties the partial dict to `Totals` of the records visited so far. |
| `Tracker.ExpenseTracker.SaveAsExcel` | tracker_2.py:141-150 | An empty ledger gives `NothingToSave`, before any dialog. A cancelled dialog gives `SaveCancelled`. Otherwise the frame handed to the writer has the four record columns and exactly the ledger's rows, in order. Nothing is changed. |
| `Tracker.ExampleTotals` | tracker_2.py:155-158 | Records of 100 and 50 under Food and 30 under Travel give `{"Food": 150, "Travel": 30}`, with keys in that order. |

`SessionWalkthrough` and `CustomCategoryWalkthrough` in `tracker.dfy`
are client methods. Using only the contracts above, they show:

- a rejected amount or a blank custom name leaves the session as it was;
- there is no report on an empty ledger;
- choosing `Others` with `" Gifts "` files a record under `Gifts` and
  adds `Gifts` as the sixth choice.

## Left out

- Widget construction, layout, styling, and showing and hiding the custom-category field (tracker_2.py:13-87, 91-99). These are user-interface code. The selector is modelled only as its list of items.
- The results table (tracker_2.py:126-132) and the `₹{amount:.2f}` formatting. These are display only: the table rows mirror the ledger one-to-one.
- Clearing the amount and custom-name fields after an add (tracker_2.py:135-136). Those lines reset the text that the next `add_expense` reads at lines 104 and 109, so a second click without retyping takes the `ValueError` branch. The model takes both texts as inputs of each call, so the caller supplies whatever the fields hold at that moment.
- The clock (tracker_2.py:41, 45, 48-51, 172-175). Date and time are inputs to `AddExpense`. The date label is set once when the window opens (tracker_2.py:41), and `update_time` refreshes only the time label, so in the program every record of a session carries the opening date. The model's free `date` input allows any date per record and does not enforce this.
- Message boxes and the save dialog (tracker_2.py:111, 139, 144, 147, 151, 161). They become the outcome values, and the dialog's answer becomes the `path` input.
- The spreadsheet write `DataFrame(...).to_excel(...)` (tracker_2.py:149-150). It is a call into pandas doing file I/O. The model stops at the frame it is given. A write failure is not caught by the code and is not modelled.
- The pie chart drawing (tracker_2.py:167-170). It is a call into matplotlib. The model stops at the labels and amounts it is given.
- Python's `float()` parsing and IEEE arithmetic. Parsing is the `Option<real>` input, and sums are exact reals. So `nan`, `inf` and rounding in the sums are not modelled.
- `Tracker.ExpenseTracker.AddExpense`: it does not model an exception other than `ValueError` escaping from the `try` block. Nothing after `float()` in that block raises one.
