/** The expense tracker: a list of expense records, an add form, a search box
    and the total spent. */
module Expenses {
  import opened Seqs
  import opened Text
  import opened Calendar
  import opened Store

  datatype ExpenseStatus = Paid | Pending

  datatype Expense = Expense(id: int, description: string, amount: int, category: string, date: Date, status: ExpenseStatus)

  /** The add form. A numeric or date input is `None` while it is blank. */
  datatype ExpenseForm = ExpenseForm(description: string, amount: Option<int>, category: string, date: Option<Date>, status: ExpenseStatus)

  /** The form as it starts and as a successful add leaves it. */
  const BlankForm: ExpenseForm := ExpenseForm("", None, "", None, Paid)

  /** The add handler's guard: description, amount, category and date all filled in. */
  predicate Complete(f: ExpenseForm)
  {
    f.description != "" && f.amount.Some? && f.category != "" && f.date.Some?
  }

  function RecordFrom(f: ExpenseForm, id: int): Expense
    requires Complete(f)
  {
    Expense(id, f.description, f.amount.value, f.category, f.date.value, f.status)
  }

  function ExpenseId(r: Expense): int { r.id }

  function ExpenseAmount(r: Expense): int { r.amount }

  /** `totalExpenses`: the sum of all amounts. */
  function TotalExpenses(s: seq<Expense>): (r: int)
    ensures (forall i :: 0 <= i < |s| ==> s[i].amount >= 0) ==> r >= 0
  {
    SumOf(s, ExpenseAmount)
  }

  predicate MatchesSearch(r: Expense, term: string)
  {
    MatchesIgnoringCase(r.description, term) || MatchesIgnoringCase(r.category, term)
  }

  function SearchMatcher(term: string): Expense -> bool
  {
    r => MatchesSearch(r, term)
  }

  /** `filteredExpenses`. */
  function FilteredExpenses(s: seq<Expense>, term: string): (r: seq<Expense>)
    ensures |r| <= |s|
    ensures forall x :: x in r ==> x in s && MatchesSearch(x, term)
  {
    Filter(s, SearchMatcher(term))
  }

  /** The search keeps, in order, exactly the records whose description or category
      contains the term ignoring case. */
  lemma FilteredExpensesAreMatches(s: seq<Expense>, term: string)
    ensures IsSubsequence(FilteredExpenses(s, term), s)
    ensures forall r :: r in FilteredExpenses(s, term) <==> r in s && MatchesSearch(r, term)
    ensures forall r ::
      multiset(FilteredExpenses(s, term))[r] == if MatchesSearch(r, term) then multiset(s)[r] else 0
  {
    FilterIsSubsequence(s, SearchMatcher(term));
    forall r ensures r in FilteredExpenses(s, term) <==> r in s && MatchesSearch(r, term) {
      FilterMembership(s, SearchMatcher(term), r);
    }
    forall r ensures multiset(FilteredExpenses(s, term))[r] == if MatchesSearch(r, term) then multiset(s)[r] else 0 {
      FilterCounts(s, SearchMatcher(term), r);
    }
  }

  /** An empty search term shows every record in order. */
  lemma EmptySearchShowsAll(s: seq<Expense>)
    ensures FilteredExpenses(s, "") == s
  {
    forall i | 0 <= i < |s| ensures SearchMatcher("")(s[i]) {
      EmptyTermMatches(s[i].description);
    }
    FilterKeepsAll(s, SearchMatcher(""));
  }

  const SeedExpenses: seq<Expense> := [
    Expense(1, "Fertilizer Purchase", 8500, "Fertilizers", Date(2024, 1, 14), Paid),
    Expense(2, "Tractor Maintenance", 4500, "Equipment", Date(2024, 1, 10), Paid),
    Expense(3, "Pesticide Spray", 2800, "Pesticides", Date(2024, 1, 8), Pending),
    Expense(4, "Labor Wages", 6000, "Labor", Date(2024, 1, 5), Paid),
    Expense(5, "Seed Purchase", 12000, "Seeds", Date(2024, 1, 3), Paid)
  ]

  class ExpenseTracker {
    var expenses: seq<Expense>
    var form: ExpenseForm
    var showAddForm: bool

    /** Without a delete, the ids stay exactly 1..|expenses|. */
    ghost predicate Valid()
      reads this
    {
      DenseIds(expenses, ExpenseId)
    }

    constructor ()
      ensures Valid()
      ensures expenses == SeedExpenses && form == BlankForm && !showAddForm
    {
      expenses := SeedExpenses;
      CountingIdsAreDense(SeedExpenses, ExpenseId);
      form := BlankForm;
      showAddForm := false;
    }

    /** Typing into the add form. */
    method EditForm(f: ExpenseForm)
      modifies this
      ensures form == f
      ensures expenses == old(expenses) && showAddForm == old(showAddForm)
    {
      form := f;
    }

    /** `handleAddExpense`: with a complete form, put the new record, carrying a
        fresh id, at the head and reset the form; otherwise change nothing. */
    method AddExpense() returns (added: bool)
      requires Valid()
      modifies this
      ensures Valid()
      ensures added <==> Complete(old(form))
      ensures added ==> expenses == [RecordFrom(old(form), |old(expenses)| + 1)] + old(expenses)
      ensures added ==> forall r :: r in old(expenses) ==> r.id != expenses[0].id
      ensures added ==> TotalExpenses(expenses) == old(TotalExpenses(expenses)) + old(form).amount.value
      ensures added ==> form == BlankForm && form.status == Paid && !showAddForm
      ensures !added ==> expenses == old(expenses) && form == old(form) && showAddForm == old(showAddForm)
    {
      if Complete(form) {
        var r := RecordFrom(form, |expenses| + 1);
        NextIdIsFresh(expenses, ExpenseId);
        PrependKeepsDense(expenses, r, ExpenseId);
        assert ([r] + expenses)[1..] == expenses;
        expenses := [r] + expenses;
        form := BlankForm;
        showAddForm := false;
        added := true;
      } else {
        added := false;
      }
    }
  }
}
