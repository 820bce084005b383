/**
 The daily expense tracker: recording an expense from the form, deleting one,
 looking up how a category is shown, and today's total. The clock, the id
 generator and `parseFloat` are parameters.
 */
module ExpenseTracker {
  import opened Common
  import opened Seqs

  datatype Expense = Expense(
    id: string,
    amount: real,
    category: string,
    description: string,
    date: string,
    time: string)

  /** The add-expense form: every field is the raw text the user typed. */
  datatype ExpenseForm = ExpenseForm(
    amount: string,
    category: string,
    description: string,
    date: string,
    time: string)

  datatype SubmitOutcome = Recorded | MissingInformation

  /** The expense list after a submit, and whether the submit was accepted. */
  datatype SubmitResult = SubmitResult(outcome: SubmitOutcome, expenses: seq<Expense>)

  /** Amount, category and description must all be non-empty. */
  predicate FormComplete(form: ExpenseForm)
  {
    form.amount != "" && form.category != "" && form.description != ""
  }

  /** The expense a complete form records, under a fresh id and with the
      amount already parsed. */
  function NewExpense(form: ExpenseForm, newId: string, parsedAmount: real): Expense
  {
    Expense(newId, parsedAmount, form.category, form.description, form.date, form.time)
  }

  /** An incomplete form is refused and leaves the list alone; a complete one
      puts the new expense first, ahead of the unchanged previous list. */
  function HandleSubmit(expenses: seq<Expense>, form: ExpenseForm, newId: string, parsedAmount: real)
    : (r: SubmitResult)
    ensures r.outcome == MissingInformation <==> !FormComplete(form)
    ensures r.outcome == MissingInformation ==> r.expenses == expenses
    ensures r.outcome == Recorded ==> |r.expenses| == |expenses| + 1 && r.expenses[1..] == expenses
    ensures r.outcome == Recorded ==> r.expenses[0].id == newId && r.expenses[0].amount == parsedAmount
    ensures r.outcome == Recorded ==> r.expenses[0].category == form.category
                                      && r.expenses[0].description == form.description
                                      && r.expenses[0].date == form.date && r.expenses[0].time == form.time
  {
    if !FormComplete(form) then SubmitResult(MissingInformation, expenses)
    else SubmitResult(Recorded, [NewExpense(form, newId, parsedAmount)] + expenses)
  }

  /** The filter predicate of a deletion: the expense does not carry `id`. */
  function KeepUnlessId(id: string): Expense -> bool
  {
    (e: Expense) => e.id != id
  }

  /** `expenses.filter(expense => expense.id !== id)`. */
  function DeleteExpense(expenses: seq<Expense>, id: string): (r: seq<Expense>)
    ensures |r| <= |expenses|
    ensures forall i :: 0 <= i < |r| ==> r[i].id != id && r[i] in expenses
    ensures forall i :: 0 <= i < |expenses| && expenses[i].id != id ==> expenses[i] in r
  {
    Filter(expenses, KeepUnlessId(id))
  }

  /** Deleting an id no expense carries changes nothing. */
  lemma DeleteAbsentIsNoOp(expenses: seq<Expense>, id: string)
    requires forall i :: 0 <= i < |expenses| ==> expenses[i].id != id
    ensures DeleteExpense(expenses, id) == expenses
  {
    FilterKeepsAll(expenses, KeepUnlessId(id));
  }

  /** Deleting the same id twice is deleting it once. */
  lemma DeleteIdempotent(expenses: seq<Expense>, id: string)
    ensures DeleteExpense(DeleteExpense(expenses, id), id) == DeleteExpense(expenses, id)
  {
    DeleteAbsentIsNoOp(DeleteExpense(expenses, id), id);
  }

  /** Deletion keeps the survivors in their original order: it works on each
      part of a list separately. */
  lemma DeleteKeepsOrder(a: seq<Expense>, b: seq<Expense>, id: string)
    ensures DeleteExpense(a + b, id) == DeleteExpense(a, id) + DeleteExpense(b, id)
  {
    FilterConcat(a, b, KeepUnlessId(id));
  }

  /** Deleting a just-recorded expense whose id was fresh restores the list. */
  lemma DeleteUndoesSubmit(expenses: seq<Expense>, form: ExpenseForm, newId: string, parsedAmount: real)
    requires FormComplete(form)
    requires forall i :: 0 <= i < |expenses| ==> expenses[i].id != newId
    ensures DeleteExpense(HandleSubmit(expenses, form, newId, parsedAmount).expenses, newId) == expenses
  {
    var e := NewExpense(form, newId, parsedAmount);
    DeleteKeepsOrder([e], expenses, newId);
    FilterKeepsNone([e], KeepUnlessId(newId));
    DeleteAbsentIsNoOp(expenses, newId);
  }

  /** How a category is shown; the icon and colour are left out. */
  datatype CategoryInfo = CategoryInfo(id: string, name: string)

  /** The eight categories of the form, in order; "other" is last, at index 7. */
  const Categories: seq<CategoryInfo> := [
    CategoryInfo("food", "Food & Dining"),
    CategoryInfo("transportation", "Transportation"),
    CategoryInfo("entertainment", "Entertainment"),
    CategoryInfo("utilities", "Utilities"),
    CategoryInfo("shopping", "Shopping"),
    CategoryInfo("housing", "Housing"),
    CategoryInfo("health", "Healthcare"),
    CategoryInfo("other", "Other")
  ]

  /** `cats.find(cat => cat.id === id)`: the first category with that id. */
  function FindCategory(cats: seq<CategoryInfo>, id: string): (r: Option<CategoryInfo>)
    ensures r.None? <==> forall i :: 0 <= i < |cats| ==> cats[i].id != id
    ensures r.Some? ==> exists i :: 0 <= i < |cats| && cats[i] == r.value
                                    && r.value.id == id
                                    && forall j :: 0 <= j < i ==> cats[j].id != id
  {
    if |cats| == 0 then None
    else if cats[0].id == id then Some(cats[0])
    else
      var rest := FindCategory(cats[1..], id);
      assert rest.Some? ==> exists i :: 0 <= i < |cats| - 1 && cats[1..][i] == rest.value
                                        && forall j :: 0 <= j < i ==> cats[1..][j].id != id;
      if rest.Some? then
        var i :| 0 <= i < |cats| - 1 && cats[1..][i] == rest.value
                 && forall j :: 0 <= j < i ==> cats[1..][j].id != id;
        assert cats[i + 1] == rest.value;
        assert forall j :: 0 <= j < i + 1 ==> cats[j].id != id by {
          forall j | 0 <= j < i + 1 ensures cats[j].id != id {
            if j > 0 { assert cats[j] == cats[1..][j - 1]; }
          }
        }
        rest
      else
        assert forall i :: 0 <= i < |cats| ==> cats[i].id != id by {
          forall i | 0 <= i < |cats| ensures cats[i].id != id {
            if i > 0 { assert cats[i] == cats[1..][i - 1]; }
          }
        }
        rest
  }

  /** The display entry for a category id, falling back to "Other" for an
      unknown one. */
  function GetCategoryInfo(categoryId: string): (info: CategoryInfo)
    ensures info in Categories
    ensures (exists i :: 0 <= i < |Categories| && Categories[i].id == categoryId) ==> info.id == categoryId
    ensures (forall i :: 0 <= i < |Categories| ==> Categories[i].id != categoryId) ==> info == Categories[7]
  {
    FindCategory(Categories, categoryId).GetOr(Categories[7])
  }

  /** A known id shows its own entry, and any other id shows "Other". */
  lemma CategoryLookup(categoryId: string)
    ensures GetCategoryInfo("food") == CategoryInfo("food", "Food & Dining")
    ensures GetCategoryInfo(categoryId).id == categoryId || GetCategoryInfo(categoryId) == CategoryInfo("other", "Other")
  {
    assert Categories[0].id == "food";
    if exists i :: 0 <= i < |Categories| && Categories[i].id == categoryId {
      assert GetCategoryInfo(categoryId).id == categoryId;
    } else {
      assert GetCategoryInfo(categoryId) == Categories[7];
    }
  }

  function Amount(e: Expense): real { e.amount }

  /** The filter predicate of today's total: the expense is dated `today`. */
  function DatedOn(today: string): Expense -> bool
  {
    (e: Expense) => e.date == today
  }

  /** The expenses dated `today`, summed. `today` is the caller's date in the
      ISO `YYYY-MM-DD` form. Nothing dated today, in particular an empty list,
      totals 0. */
  function TodaysTotal(expenses: seq<Expense>, today: string): (total: real)
    ensures (forall i :: 0 <= i < |expenses| ==> expenses[i].date != today) ==> total == 0.0
  {
    Sum(Filter(expenses, DatedOn(today)), Amount)
  }

  /** Today's total of a list is the totals of its parts added up. */
  lemma TodaysTotalConcat(a: seq<Expense>, b: seq<Expense>, today: string)
    ensures TodaysTotal(a + b, today) == TodaysTotal(a, today) + TodaysTotal(b, today)
  {
    FilterConcat(a, b, DatedOn(today));
    SumConcat(Filter(a, DatedOn(today)), Filter(b, DatedOn(today)), Amount);
  }

  /** One expense counts towards today's total exactly when it is dated today. */
  lemma TodaysTotalSingle(e: Expense, today: string)
    ensures TodaysTotal([e], today) == if e.date == today then e.amount else 0.0
  {
    assert [e][1..] == [];
    if e.date == today {
      SumSingleton(e, Amount);
    }
  }

  /** A recorded expense adds its amount to today's total when dated today and
      nothing otherwise; a refused submit changes nothing. */
  lemma SubmitUpdatesTodaysTotal(expenses: seq<Expense>, form: ExpenseForm, newId: string,
                                 parsedAmount: real, today: string)
    ensures var r := HandleSubmit(expenses, form, newId, parsedAmount);
            TodaysTotal(r.expenses, today)
              == TodaysTotal(expenses, today)
                 + (if r.outcome == Recorded && form.date == today then parsedAmount else 0.0)
  {
    if FormComplete(form) {
      var e := NewExpense(form, newId, parsedAmount);
      TodaysTotalConcat([e], expenses, today);
      TodaysTotalSingle(e, today);
    }
  }
}
