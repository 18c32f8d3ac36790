/** The income tracker: a list of income records, an add form, a search box and
    two totals. */
module Incomes {
  import opened Seqs
  import opened Text
  import opened Calendar
  import opened Store

  datatype IncomeStatus = Received | Pending

  datatype Income = Income(id: int, description: string, amount: int, source: string, date: Date, status: IncomeStatus)

  /** The add form. A numeric or date input is `None` while it is blank. */
  datatype IncomeForm = IncomeForm(description: string, amount: Option<int>, source: string, date: Option<Date>, status: IncomeStatus)

  /** The form as it starts and as a successful add leaves it. */
  const BlankForm: IncomeForm := IncomeForm("", None, "", None, Received)

  /** The add handler's guard: description, amount, source and date all filled in. */
  predicate Complete(f: IncomeForm)
  {
    f.description != "" && f.amount.Some? && f.source != "" && f.date.Some?
  }

  function RecordFrom(f: IncomeForm, id: int): Income
    requires Complete(f)
  {
    Income(id, f.description, f.amount.value, f.source, f.date.value, f.status)
  }

  function IncomeId(r: Income): int { r.id }

  function IncomeAmount(r: Income): int { r.amount }

  predicate IsPending(r: Income) { r.status == Pending }

  /** `totalIncome`: the sum of all amounts. */
  function TotalIncome(s: seq<Income>): (r: int)
    ensures (forall i :: 0 <= i < |s| ==> s[i].amount >= 0) ==> r >= 0
  {
    SumOf(s, IncomeAmount)
  }

  /** `pendingIncome`: the sum of the amounts still pending. */
  function PendingIncome(s: seq<Income>): (r: int)
    ensures (forall i :: 0 <= i < |s| ==> s[i].amount >= 0) ==> r >= 0
  {
    SumOfFilterAtMost(s, IsPending, IncomeAmount);
    SumOf(Filter(s, IsPending), IncomeAmount)
  }

  predicate MatchesSearch(r: Income, term: string)
  {
    MatchesIgnoringCase(r.description, term) || MatchesIgnoringCase(r.source, term)
  }

  function SearchMatcher(term: string): Income -> bool
  {
    r => MatchesSearch(r, term)
  }

  /** `filteredIncomes`. */
  function FilteredIncomes(s: seq<Income>, term: string): (r: seq<Income>)
    ensures |r| <= |s|
    ensures forall x :: x in r ==> x in s && MatchesSearch(x, term)
  {
    Filter(s, SearchMatcher(term))
  }

  /** The search keeps, in order, exactly the records whose description or source
      contains the term ignoring case. */
  lemma FilteredIncomesAreMatches(s: seq<Income>, term: string)
    ensures IsSubsequence(FilteredIncomes(s, term), s)
    ensures forall r :: r in FilteredIncomes(s, term) <==> r in s && MatchesSearch(r, term)
    ensures forall r ::
      multiset(FilteredIncomes(s, term))[r] == if MatchesSearch(r, term) then multiset(s)[r] else 0
  {
    FilterIsSubsequence(s, SearchMatcher(term));
    forall r ensures r in FilteredIncomes(s, term) <==> r in s && MatchesSearch(r, term) {
      FilterMembership(s, SearchMatcher(term), r);
    }
    forall r ensures multiset(FilteredIncomes(s, term))[r] == if MatchesSearch(r, term) then multiset(s)[r] else 0 {
      FilterCounts(s, SearchMatcher(term), r);
    }
  }

  /** An empty search term shows every record in order. */
  lemma EmptySearchShowsAll(s: seq<Income>)
    ensures FilteredIncomes(s, "") == s
  {
    forall i | 0 <= i < |s| ensures SearchMatcher("")(s[i]) {
      EmptyTermMatches(s[i].description);
    }
    FilterKeepsAll(s, SearchMatcher(""));
  }

  /** With non-negative amounts, the pending amount never exceeds the total. */
  lemma PendingAtMostTotal(s: seq<Income>)
    requires forall i :: 0 <= i < |s| ==> s[i].amount >= 0
    ensures 0 <= PendingIncome(s) <= TotalIncome(s)
  {
    SumOfFilterAtMost(s, IsPending, IncomeAmount);
  }

  const SeedIncomes: seq<Income> := [
    Income(1, "Wheat Sale", 15000, "Crop Sales", Date(2024, 1, 15), Received),
    Income(2, "Rice Sale", 22000, "Crop Sales", Date(2024, 1, 12), Received),
    Income(3, "Vegetable Sale", 8500, "Crop Sales", Date(2024, 1, 10), Pending),
    Income(4, "Milk Sale", 3200, "Dairy", Date(2024, 1, 8), Received),
    Income(5, "Equipment Rental", 4500, "Services", Date(2024, 1, 5), Received)
  ]

  class IncomeTracker {
    var incomes: seq<Income>
    var form: IncomeForm
    var showAddForm: bool

    /** Without a delete, the ids stay exactly 1..|incomes|. */
    ghost predicate Valid()
      reads this
    {
      DenseIds(incomes, IncomeId)
    }

    constructor ()
      ensures Valid()
      ensures incomes == SeedIncomes && form == BlankForm && !showAddForm
    {
      incomes := SeedIncomes;
      CountingIdsAreDense(SeedIncomes, IncomeId);
      form := BlankForm;
      showAddForm := false;
    }

    /** Typing into the add form. */
    method EditForm(f: IncomeForm)
      modifies this
      ensures form == f
      ensures incomes == old(incomes) && showAddForm == old(showAddForm)
    {
      form := f;
    }

    /** `handleAddIncome`: with a complete form, put the new record, carrying a
        fresh id, at the head and reset the form; otherwise change nothing. */
    method AddIncome() returns (added: bool)
      requires Valid()
      modifies this
      ensures Valid()
      ensures added <==> Complete(old(form))
      ensures added ==> incomes == [RecordFrom(old(form), |old(incomes)| + 1)] + old(incomes)
      ensures added ==> forall r :: r in old(incomes) ==> r.id != incomes[0].id
      ensures added ==> TotalIncome(incomes) == old(TotalIncome(incomes)) + old(form).amount.value
      ensures added ==> form == BlankForm && form.status == Received && !showAddForm
      ensures !added ==> incomes == old(incomes) && form == old(form) && showAddForm == old(showAddForm)
    {
      if Complete(form) {
        var r := RecordFrom(form, |incomes| + 1);
        NextIdIsFresh(incomes, IncomeId);
        PrependKeepsDense(incomes, r, IncomeId);
        assert ([r] + incomes)[1..] == incomes;
        incomes := [r] + incomes;
        form := BlankForm;
        showAddForm := false;
        added := true;
      } else {
        added := false;
      }
    }
  }
}
