/**
 The budget dashboard: the fields derived from each category's allocation and
 spending, the drag-and-drop reorder of the category list, the overall totals
 and the label that describes what is left of a category's budget.
 */
module BudgetMastery {
  import opened Common
  import opened Seqs

  /** A budget category as stored; icon and colour are left out. */
  datatype BudgetCategory = BudgetCategory(id: string, name: string, allocation: real, spent: real)

  datatype Status = Healthy | Warning | Danger

  /** A category with its derived fields. `percentSpent` is `None` where
      BudgetMastery.tsx divides by a zero allocation and gets a non-finite number. */
  datatype DerivedCategory = DerivedCategory(
    category: BudgetCategory,
    remaining: real,
    percentSpent: Option<int>,
    status: Status)

  /** `Math.round(part / whole * 100)`; `None` for a zero `whole`. */
  function PercentOf(part: real, whole: real): (pct: Option<int>)
    ensures pct.Some? <==> whole != 0.0
    ensures pct.Some? ==> pct.value as real - 0.5 <= part / whole * 100.0 < pct.value as real + 0.5
  {
    if whole == 0.0 then None else Some(Round(part / whole * 100.0))
  }

  /** Danger above 90% of the allocation spent, warning above 70%, healthy
      otherwise. With a zero allocation the JavaScript quotient is +Infinity
      (danger) for positive spending and -Infinity or NaN (healthy) otherwise. */
  function StatusOf(spent: real, allocation: real): (st: Status)
    ensures allocation != 0.0 ==> (st == Danger <==> spent / allocation > 0.9)
    ensures allocation != 0.0 ==> (st == Warning <==> 0.7 < spent / allocation <= 0.9)
    ensures allocation != 0.0 ==> (st == Healthy <==> spent / allocation <= 0.7)
    ensures allocation == 0.0 ==> (st == Danger <==> spent > 0.0)
    ensures allocation == 0.0 ==> st != Warning
  {
    if allocation == 0.0 then (if spent > 0.0 then Danger else Healthy)
    else
      var ratio := spent / allocation;
      if ratio > 0.9 then Danger else if ratio > 0.7 then Warning else Healthy
  }

  /** Above a bound as a ratio is above the bound times a positive divisor. */
  lemma RatioAbove(x: real, y: real, bound: real)
    requires y > 0.0
    ensures x / y > bound <==> x > bound * y
  {
    var q := x / y;
    assert x == q * y;
    assert x - bound * y == (q - bound) * y;
    if q > bound {
      assert (q - bound) * y > 0.0;
    } else {
      assert (bound - q) * y >= 0.0;
    }
  }

  /** For a positive allocation the status thresholds read without division. */
  lemma StatusThresholdsWithoutDivision(spent: real, allocation: real)
    requires allocation > 0.0
    ensures StatusOf(spent, allocation) == Danger <==> spent > 0.9 * allocation
    ensures StatusOf(spent, allocation) == Warning <==> 0.7 * allocation < spent <= 0.9 * allocation
    ensures StatusOf(spent, allocation) == Healthy <==> spent <= 0.7 * allocation
  {
    var ratio := spent / allocation;
    assert spent == ratio * allocation;
    RatioAbove(spent, allocation, 0.9);
    RatioAbove(spent, allocation, 0.7);
  }

  /** The derived fields of one category. */
  function Derive(c: BudgetCategory): (d: DerivedCategory)
    ensures d.category == c
    ensures d.remaining + c.spent == c.allocation
    ensures d.percentSpent == PercentOf(c.spent, c.allocation)
    ensures d.status == StatusOf(c.spent, c.allocation)
  {
    DerivedCategory(c, c.allocation - c.spent, PercentOf(c.spent, c.allocation), StatusOf(c.spent, c.allocation))
  }

  /** The initial list: every category with its derived fields, in order. */
  function DeriveAll(cs: seq<BudgetCategory>): (ds: seq<DerivedCategory>)
    ensures |ds| == |cs|
    ensures forall i :: 0 <= i < |cs| ==> ds[i].category == cs[i]
    ensures forall i :: 0 <= i < |cs| ==> ds[i].remaining == cs[i].allocation - cs[i].spent
    ensures forall i :: 0 <= i < |cs| ==> ds[i] == Derive(cs[i])
  {
    seq(|cs|, i requires 0 <= i < |cs| => Derive(cs[i]))
  }

  /** What the drag library reports when a drag ends: where the item came
      from, and where it was dropped, if anywhere. */
  datatype DragResult = DragResult(source: nat, destination: Option<nat>)

  /** A drag with no destination changes nothing; otherwise the item at the
      source index moves to the destination index. */
  function HandleDragEnd(ds: seq<DerivedCategory>, result: DragResult): (r: seq<DerivedCategory>)
    requires result.destination.Some? ==> result.source < |ds|
    ensures result.destination.None? ==> r == ds
    ensures |r| == |ds|
    ensures multiset(r) == multiset(ds)
    ensures result.destination.Some? && result.destination.value < |ds|
            ==> r[result.destination.value] == ds[result.source]
  {
    match result.destination
    case None => ds
    case Some(dst) => Move(ds, result.source, dst)
  }

  /** Apart from the moved category, the list keeps its order. */
  lemma DragKeepsOtherOrder(ds: seq<DerivedCategory>, src: nat, dst: nat)
    requires src < |ds| && dst < |ds|
    ensures RemoveAt(HandleDragEnd(ds, DragResult(src, Some(dst))), dst) == RemoveAt(ds, src)
  {
    MovePreservesOthers(ds, src, dst);
  }

  /** Dragging a category back to where it came from undoes a reorder. */
  lemma DragBackRestores(ds: seq<DerivedCategory>, src: nat, dst: nat)
    requires src < |ds| && dst < |ds|
    ensures HandleDragEnd(HandleDragEnd(ds, DragResult(src, Some(dst))), DragResult(dst, Some(src))) == ds
  {
    var moved := HandleDragEnd(ds, DragResult(src, Some(dst)));
    MovePreservesOthers(ds, src, dst);
    var back := Move(moved, dst, src);
    var rest := RemoveAt(moved, dst);
    assert rest == RemoveAt(ds, src);
    assert back == rest[..src] + [ds[src]] + rest[src..];
    ReinsertRemoved(ds, src);
  }

  function Allocated(d: DerivedCategory): real { d.category.allocation }
  function Spent(d: DerivedCategory): real { d.category.spent }

  /** Sum of the allocations: 0 for no categories, and never negative when no
      allocation is. */
  function TotalAllocated(ds: seq<DerivedCategory>): (total: real)
    ensures |ds| == 0 ==> total == 0.0
    ensures (forall i :: 0 <= i < |ds| ==> ds[i].category.allocation >= 0.0) ==> total >= 0.0
  {
    Sum(ds, Allocated)
  }

  /** Sum of the spending: 0 for no categories, and never negative when no
      category's spending is. */
  function TotalSpent(ds: seq<DerivedCategory>): (total: real)
    ensures |ds| == 0 ==> total == 0.0
    ensures (forall i :: 0 <= i < |ds| ==> ds[i].category.spent >= 0.0) ==> total >= 0.0
  {
    Sum(ds, Spent)
  }

  /** Share of the total allocation spent, in whole percent. */
  function OverallPercentSpent(ds: seq<DerivedCategory>): (pct: Option<int>)
    ensures pct.Some? <==> TotalAllocated(ds) != 0.0
    ensures pct.Some? ==> pct.value as real - 0.5 <= TotalSpent(ds) / TotalAllocated(ds) * 100.0 < pct.value as real + 0.5
  {
    PercentOf(TotalSpent(ds), TotalAllocated(ds))
  }

  /** The totals are sums of the per-category fields, and adding a category
      at the end adds its amounts. */
  lemma TotalsAppend(ds: seq<DerivedCategory>, d: DerivedCategory)
    ensures TotalAllocated(ds + [d]) == TotalAllocated(ds) + d.category.allocation
    ensures TotalSpent(ds + [d]) == TotalSpent(ds) + d.category.spent
  {
    SumConcat(ds, [d], Allocated);
    SumConcat(ds, [d], Spent);
    SumSingleton(d, Allocated);
    SumSingleton(d, Spent);
  }

  /** Reordering changes neither total nor the overall percentage. */
  lemma DragKeepsTotals(ds: seq<DerivedCategory>, result: DragResult)
    requires result.destination.Some? ==> result.source < |ds|
    ensures TotalAllocated(HandleDragEnd(ds, result)) == TotalAllocated(ds)
    ensures TotalSpent(HandleDragEnd(ds, result)) == TotalSpent(ds)
    ensures OverallPercentSpent(HandleDragEnd(ds, result)) == OverallPercentSpent(ds)
  {
    if result.destination.Some? {
      MovePreservesSum(ds, result.source, result.destination.value, Allocated);
      MovePreservesSum(ds, result.source, result.destination.value, Spent);
    }
  }

  /** The line under a category's name. */
  datatype RemainingLabel =
    | Left(amount: real)          // "<amount> left"
    | BudgetUsed                  // "Budget used"
    | OverBudget(amount: real)    // "<amount> over budget"

  /** The label follows the sign of the remaining amount and shows its magnitude. */
  function LabelFor(remaining: real): (l: RemainingLabel)
    ensures l.Left? <==> remaining > 0.0
    ensures l.BudgetUsed? <==> remaining == 0.0
    ensures l.OverBudget? <==> remaining < 0.0
    ensures !l.BudgetUsed? ==> l.amount > 0.0
  {
    if remaining > 0.0 then Left(remaining)
    else if remaining == 0.0 then BudgetUsed
    else OverBudget(Abs(remaining))
  }

  /** The amount a label stands for, with its sign restored. */
  function SignedAmount(l: RemainingLabel): real
  {
    match l
    case Left(a) => a
    case BudgetUsed => 0.0
    case OverBudget(a) => -a
  }

  /** The label loses nothing: its signed amount is the remaining amount. */
  lemma LabelRoundTrip(remaining: real)
    ensures SignedAmount(LabelFor(remaining)) == remaining
  {
  }

  /** A derived category's label reads its allocation minus its spending. */
  lemma CategoryLabel(c: BudgetCategory)
    ensures SignedAmount(LabelFor(Derive(c).remaining)) == c.allocation - c.spent
    ensures LabelFor(Derive(c).remaining).OverBudget? <==> c.spent > c.allocation
  {
  }
}
