/** The budget planner: per-category budgets with a stored percentage, a
    three-band status, and overall totals and progress. */
module Budgets {
  import opened Seqs
  import opened Store

  /** The number a division produces in JavaScript: finite, an infinity, or NaN.
      A finite quotient is kept as the exact rational, not the nearest double. */
  datatype Ratio = Finite(value: real) | Infinite(positive: bool) | NaN

  /** `(part / whole) * 100`, unguarded as in the source: a zero `whole` yields
      an infinity, or NaN when `part` is zero too. */
  function Percent(part: int, whole: int): (p: Ratio)
    ensures whole != 0 ==> p.Finite? && p.value * (whole as real) == (part as real) * 100.0
    ensures whole > 0 && 0 <= part ==> p.Finite? && 0.0 <= p.value && (p.value >= 100.0 <==> part >= whole)
    ensures whole == 0 ==>
      (p == NaN <==> part == 0) && (p == Infinite(true) <==> part > 0) && (p == Infinite(false) <==> part < 0)
  {
    if whole != 0 then Finite((part as real / whole as real) * 100.0)
    else if part > 0 then Infinite(true)
    else if part < 0 then Infinite(false)
    else NaN
  }

  /** `p < x`; every comparison with NaN is false. */
  predicate Below(p: Ratio, x: real)
  {
    match p
    case Finite(v) => v < x
    case Infinite(positive) => !positive
    case NaN => false
  }

  /** `p > x`; every comparison with NaN is false. */
  predicate Above(p: Ratio, x: real)
  {
    match p
    case Finite(v) => v > x
    case Infinite(positive) => positive
    case NaN => false
  }

  datatype BudgetStatus = OnTrack | Warning | OverBudget

  /** `getBudgetStatus`: below 70 on track, below 90 a warning, otherwise over budget. */
  function StatusOf(p: Ratio): (s: BudgetStatus)
    ensures p.Finite? ==> (s == OnTrack <==> p.value < 70.0)
    ensures p.Finite? ==> (s == Warning <==> 70.0 <= p.value < 90.0)
    ensures p.Finite? ==> (s == OverBudget <==> p.value >= 90.0)
    ensures p.Infinite? ==> (s == OverBudget <==> p.positive) && (s != Warning)
    ensures p == NaN ==> s == OverBudget
  {
    if Below(p, 70.0) then OnTrack
    else if Below(p, 90.0) then Warning
    else OverBudget
  }

  /** How bad a status is: the bands in order. */
  function Severity(s: BudgetStatus): nat
  {
    match s
    case OnTrack => 0
    case Warning => 1
    case OverBudget => 2
  }

  /** A higher percentage never gives a better status. */
  lemma StatusMonotone(p: real, q: real)
    requires p <= q
    ensures Severity(StatusOf(Finite(p))) <= Severity(StatusOf(Finite(q)))
  {
  }

  datatype Budget = Budget(id: int, category: string, budgeted: int, spent: int, percentage: Ratio)

  /** The alert icon beside a budget: shown when its percentage is above 90. */
  predicate ShowsAlert(b: Budget)
  {
    Above(b.percentage, 90.0)
  }

  /** The icon only ever appears on an over-budget row, but not on every one:
      exactly 90 percent, and NaN, are over budget without the icon. */
  lemma AlertOnlyWhenOverBudget(b: Budget)
    ensures ShowsAlert(b) ==> StatusOf(b.percentage) == OverBudget
    ensures b.percentage == Finite(90.0) ==> StatusOf(b.percentage) == OverBudget && !ShowsAlert(b)
    ensures b.percentage == NaN ==> StatusOf(b.percentage) == OverBudget && !ShowsAlert(b)
  {
  }

  /** The add form; `spent` starts at 0 and `budgeted` is `None` while blank. */
  datatype BudgetForm = BudgetForm(category: string, budgeted: Option<int>, spent: int)

  const BlankForm: BudgetForm := BudgetForm("", None, 0)

  predicate Complete(f: BudgetForm)
  {
    f.category != "" && f.budgeted.Some?
  }

  function RecordFrom(f: BudgetForm, id: int): Budget
    requires Complete(f)
  {
    Budget(id, f.category, f.budgeted.value, f.spent, Percent(f.spent, f.budgeted.value))
  }

  function BudgetId(b: Budget): int { b.id }

  function Budgeted(b: Budget): int { b.budgeted }

  function Spent(b: Budget): int { b.spent }

  /** `totalBudgeted`. */
  function TotalBudgeted(s: seq<Budget>): (r: int)
    ensures (forall i :: 0 <= i < |s| ==> s[i].budgeted >= 0) ==> r >= 0
  {
    SumOf(s, Budgeted)
  }

  /** `totalSpent`. */
  function TotalSpent(s: seq<Budget>): (r: int)
    ensures (forall i :: 0 <= i < |s| ==> s[i].spent >= 0) ==> r >= 0
  {
    SumOf(s, Spent)
  }

  /** The "Remaining" figure: negative once the budgets are overspent in total. */
  function Remaining(s: seq<Budget>): (r: int)
    ensures r < 0 <==> TotalSpent(s) > TotalBudgeted(s)
  {
    TotalBudgeted(s) - TotalSpent(s)
  }

  /** `overallProgress`: the total spent as a percentage of the total budgeted. */
  function OverallProgress(s: seq<Budget>): (p: Ratio)
    ensures TotalBudgeted(s) != 0 ==>
      p.Finite? && p.value * (TotalBudgeted(s) as real) == (TotalSpent(s) as real) * 100.0
    ensures TotalBudgeted(s) == 0 ==> !p.Finite?
  {
    Percent(TotalSpent(s), TotalBudgeted(s))
  }

  /** The overall progress is a finite percentage when every budget is positive
      and there is at least one; with no budgets it is 0/0, NaN. */
  lemma {:induction false} OverallProgressDefined(s: seq<Budget>)
    requires forall i :: 0 <= i < |s| ==> s[i].budgeted > 0
    ensures s != [] ==> TotalBudgeted(s) > 0 && OverallProgress(s).Finite?
    ensures s == [] ==> OverallProgress(s) == NaN
  {
    if s != [] {
      assert forall i :: 0 <= i < |s[1..]| ==> Budgeted(s[1..][i]) >= 0;
    }
  }

  /** A budget appended at the tail adds its amounts to both totals. */
  lemma AppendAddsToTotals(s: seq<Budget>, b: Budget)
    ensures TotalBudgeted(s + [b]) == TotalBudgeted(s) + b.budgeted
    ensures TotalSpent(s + [b]) == TotalSpent(s) + b.spent
  {
    SumOfAppend(s, [b], Budgeted);
    SumOfAppend(s, [b], Spent);
  }

  const SeedBudgets: seq<Budget> := [
    Budget(1, "Fertilizers", 25000, 18500, Finite(74.0)),
    Budget(2, "Seeds", 15000, 12000, Finite(80.0)),
    Budget(3, "Equipment", 30000, 28000, Finite(93.0)),
    Budget(4, "Labor", 20000, 15000, Finite(75.0)),
    Budget(5, "Utilities", 8000, 6500, Finite(81.0))
  ]

  /** The seeded rows store their percentage rounded down to a whole number,
      so their bands are those of the exact ratio: Equipment is over budget
      (with the icon), the others warnings. */
  lemma SeedBudgetsStatuses()
    ensures forall i :: 0 <= i < |SeedBudgets| ==>
      var b := SeedBudgets[i];
      var exact := Percent(b.spent, b.budgeted);
      exact.Finite? && b.percentage.value <= exact.value < b.percentage.value + 1.0 &&
      StatusOf(b.percentage) == StatusOf(exact)
    ensures StatusOf(SeedBudgets[2].percentage) == OverBudget && ShowsAlert(SeedBudgets[2])
    ensures forall i :: 0 <= i < |SeedBudgets| && i != 2 ==> StatusOf(SeedBudgets[i].percentage) == Warning
  {
  }

  class BudgetPlanner {
    var budgets: seq<Budget>
    var form: BudgetForm
    var showAddForm: bool

    /** Without a delete, the ids stay exactly 1..|budgets|. */
    ghost predicate Valid()
      reads this
    {
      DenseIds(budgets, BudgetId)
    }

    constructor ()
      ensures Valid()
      ensures budgets == SeedBudgets && form == BlankForm && !showAddForm
    {
      budgets := SeedBudgets;
      CountingIdsAreDense(SeedBudgets, BudgetId);
      form := BlankForm;
      showAddForm := false;
    }

    /** Typing into the add form. */
    method EditForm(f: BudgetForm)
      modifies this
      ensures form == f
      ensures budgets == old(budgets) && showAddForm == old(showAddForm)
    {
      form := f;
    }

    /** `handleAddBudget`: with a category and an amount, append the new budget,
        carrying a fresh id and its computed percentage, at the tail and reset
        the form; otherwise change nothing. */
    method AddBudget() returns (added: bool)
      requires Valid()
      modifies this
      ensures Valid()
      ensures added <==> Complete(old(form))
      ensures added ==> budgets == old(budgets) + [RecordFrom(old(form), |old(budgets)| + 1)]
      ensures added ==> forall b :: b in old(budgets) ==> b.id != budgets[|budgets| - 1].id
      ensures added ==> TotalBudgeted(budgets) == old(TotalBudgeted(budgets)) + old(form).budgeted.value
      ensures added ==> TotalSpent(budgets) == old(TotalSpent(budgets)) + old(form).spent
      ensures added ==> form == BlankForm && !showAddForm
      ensures !added ==> budgets == old(budgets) && form == old(form) && showAddForm == old(showAddForm)
    {
      if Complete(form) {
        var b := RecordFrom(form, |budgets| + 1);
        NextIdIsFresh(budgets, BudgetId);
        AppendKeepsDense(budgets, b, BudgetId);
        AppendAddsToTotals(budgets, b);
        budgets := budgets + [b];
        form := BlankForm;
        showAddForm := false;
        added := true;
      } else {
        added := false;
      }
    }
  }
}
