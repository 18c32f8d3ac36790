/** Loan management: loans with a precomputed EMI, an add form, and the
    outstanding, monthly-EMI and overdue figures. */
module Loans {
  import opened Seqs
  import opened Calendar
  import opened Store

  datatype LoanStatus = Active | Closed | Overdue

  datatype Loan = Loan(
    id: int,
    source: string,
    amount: int,
    interestRate: real,
    tenure: int,
    startDate: Date,
    emi: int,
    remainingAmount: int,
    status: LoanStatus,
    nextDueDate: Date)

  /** The add form; numeric and date inputs are `None` while blank. */
  datatype LoanForm = LoanForm(
    source: string,
    amount: Option<int>,
    interestRate: Option<real>,
    tenure: Option<int>,
    startDate: Option<Date>)

  const BlankForm: LoanForm := LoanForm("", None, None, None, None)

  /** The add handler's guard: all five fields filled in. */
  predicate Complete(f: LoanForm)
  {
    f.source != "" && f.amount.Some? && f.interestRate.Some? && f.tenure.Some? && f.startDate.Some?
  }

  /** The loan an add creates. Its EMI and next due date come from the
      amortisation formula and the date arithmetic, which are inputs here. */
  function RecordFrom(f: LoanForm, id: int, emi: int, nextDueDate: Date): (l: Loan)
    requires Complete(f)
    ensures l.id == id && l.status == Active
    ensures l.remainingAmount == l.amount == f.amount.value
  {
    Loan(id, f.source, f.amount.value, f.interestRate.value, f.tenure.value, f.startDate.value,
         emi, f.amount.value, Active, nextDueDate)
  }

  function LoanId(l: Loan): int { l.id }

  function Remaining(l: Loan): int { l.remainingAmount }

  function Emi(l: Loan): int { l.emi }

  predicate IsActive(l: Loan) { l.status == Active }

  predicate IsOverdue(l: Loan) { l.status == Overdue }

  /** `totalLoanAmount`: outstanding amounts of all loans, whatever their status. */
  function TotalLoanAmount(s: seq<Loan>): (r: int)
    ensures (forall i :: 0 <= i < |s| ==> s[i].remainingAmount >= 0) ==> r >= 0
  {
    SumOf(s, Remaining)
  }

  /** `totalEMI`: the EMIs of the active loans only. */
  function TotalEmi(s: seq<Loan>): (r: int)
    ensures (forall i :: 0 <= i < |s| ==> s[i].emi >= 0) ==> r >= 0
  {
    SumOfFilterAtMost(s, IsActive, Emi);
    SumOf(Filter(s, IsActive), Emi)
  }

  /** `overdueLoans`: how many loans are overdue; 0 exactly when none is. */
  function OverdueCount(s: seq<Loan>): (n: nat)
    ensures n <= |s|
    ensures n == 0 <==> forall i :: 0 <= i < |s| ==> s[i].status != Overdue
  {
    FilterEmptyIff(s, IsOverdue);
    |Filter(s, IsOverdue)|
  }

  /** Each loan adds one to the overdue count exactly when it is overdue. */
  lemma OverdueCountStep(l: Loan, s: seq<Loan>)
    ensures OverdueCount([l] + s) == OverdueCount(s) + (if IsOverdue(l) then 1 else 0)
  {
    assert ([l] + s)[1..] == s;
    if IsOverdue(l) {
      assert Filter([l] + s, IsOverdue)[1..] == Filter(s, IsOverdue);
    } else {
      assert Filter([l] + s, IsOverdue) == Filter(s, IsOverdue);
    }
  }

  /** The EMI alert is shown when some loan is active, that is, when the
      active loans the EMI total sums over are not none. */
  predicate ShowsEmiAlert(s: seq<Loan>): (shown: bool)
    ensures shown <==> Filter(s, IsActive) != []
  {
    FilterEmptyIff(s, IsActive);
    exists i :: 0 <= i < |s| && IsActive(s[i])
  }

  /** Only active loans count towards the monthly EMI: a loan that is closed or
      overdue contributes its outstanding amount but no EMI. */
  lemma InactiveLoanAddsNoEmi(l: Loan, s: seq<Loan>)
    requires !IsActive(l)
    ensures TotalEmi([l] + s) == TotalEmi(s)
    ensures TotalLoanAmount([l] + s) == l.remainingAmount + TotalLoanAmount(s)
  {
    assert ([l] + s)[1..] == s;
    assert Filter([l] + s, IsActive) == Filter(s, IsActive);
  }

  /** Adding an active loan at the head raises the outstanding total by its
      amount and the EMI total by its EMI, and leaves the overdue count alone. */
  lemma ActiveLoanAddsToTotals(l: Loan, s: seq<Loan>)
    requires IsActive(l)
    ensures TotalLoanAmount([l] + s) == TotalLoanAmount(s) + l.remainingAmount
    ensures TotalEmi([l] + s) == TotalEmi(s) + l.emi
    ensures OverdueCount([l] + s) == OverdueCount(s)
    ensures ShowsEmiAlert([l] + s)
  {
    assert ([l] + s)[1..] == s;
    assert Filter([l] + s, IsActive)[1..] == Filter(s, IsActive);
    OverdueCountStep(l, s);
    assert IsActive(([l] + s)[0]);
  }

  /** The EMI total is at most the sum of all EMIs when EMIs are non-negative,
      and the overdue count at most the number of loans. */
  lemma TotalsBounded(s: seq<Loan>)
    requires forall i :: 0 <= i < |s| ==> s[i].emi >= 0
    ensures TotalEmi(s) <= SumOf(s, Emi)
  {
    SumOfFilterAtMost(s, IsActive, Emi);
  }

  /** The EMI alert shows exactly when some loan is active; without it the EMI total is 0. */
  lemma EmiAlertIffActiveLoan(s: seq<Loan>)
    ensures ShowsEmiAlert(s) <==> Filter(s, IsActive) != []
    ensures !ShowsEmiAlert(s) ==> TotalEmi(s) == 0
  {
    if ShowsEmiAlert(s) {
      var i :| 0 <= i < |s| && IsActive(s[i]);
      FilterMembership(s, IsActive, s[i]);
    } else {
      FilterKeepsNone(s, IsActive);
    }
  }

  /** What the add handler relies on: the new active loan's id is fresh, the
      ids stay dense, and the totals move by its amounts. */
  lemma PrependActiveLoan(l: Loan, s: seq<Loan>)
    requires DenseIds(s, LoanId) && l.id == NextId(s) && IsActive(l)
    ensures DenseIds([l] + s, LoanId)
    ensures forall x :: x in s ==> x.id != l.id
    ensures TotalLoanAmount([l] + s) == TotalLoanAmount(s) + l.remainingAmount
    ensures TotalEmi([l] + s) == TotalEmi(s) + l.emi
    ensures OverdueCount([l] + s) == OverdueCount(s) && ShowsEmiAlert([l] + s)
  {
    NextIdIsFresh(s, LoanId);
    PrependKeepsDense(s, l, LoanId);
    ActiveLoanAddsToTotals(l, s);
  }

  const SeedLoans: seq<Loan> := [
    Loan(1, "Agricultural Bank", 500000, 7.5, 60, Date(2023, 1, 15), 10000, 425000, Active, Date(2024, 2, 15)),
    Loan(2, "Cooperative Society", 200000, 5.0, 36, Date(2023, 6, 1), 6000, 140000, Active, Date(2024, 2, 1))
  ]

  class LoanManagement {
    var loans: seq<Loan>
    var form: LoanForm
    var showAddForm: bool

    /** Without a delete, the ids stay exactly 1..|loans|. */
    ghost predicate Valid()
      reads this
    {
      DenseIds(loans, LoanId)
    }

    constructor ()
      ensures Valid()
      ensures loans == SeedLoans && form == BlankForm && !showAddForm
    {
      loans := SeedLoans;
      CountingIdsAreDense(SeedLoans, LoanId);
      form := BlankForm;
      showAddForm := false;
    }

    /** Typing into the add form. */
    method EditForm(f: LoanForm)
      modifies this
      ensures form == f
      ensures loans == old(loans) && showAddForm == old(showAddForm)
    {
      form := f;
    }

    /** `handleAddLoan`: with all fields filled in, put a new active loan whose
        outstanding amount is its principal, carrying a fresh id, at the head
        and reset the form; otherwise change nothing. `emi` and `nextDueDate`
        are what the EMI formula and the one-month date step give. */
    method AddLoan(emi: int, nextDueDate: Date) returns (added: bool)
      requires Valid()
      modifies this
      ensures Valid()
      ensures added <==> Complete(old(form))
      ensures added ==> loans == [RecordFrom(old(form), |old(loans)| + 1, emi, nextDueDate)] + old(loans)
      ensures added ==> forall l :: l in old(loans) ==> l.id != loans[0].id
      ensures added ==> TotalLoanAmount(loans) == old(TotalLoanAmount(loans)) + old(form).amount.value
      ensures added ==> TotalEmi(loans) == old(TotalEmi(loans)) + emi
      ensures added ==> OverdueCount(loans) == old(OverdueCount(loans)) && ShowsEmiAlert(loans)
      ensures added ==> form == BlankForm && !showAddForm
      ensures !added ==> loans == old(loans) && form == old(form) && showAddForm == old(showAddForm)
    {
      if Complete(form) {
        var l := RecordFrom(form, |loans| + 1, emi, nextDueDate);
        PrependActiveLoan(l, loans);
        loans := [l] + loans;
        form := BlankForm;
        showAddForm := false;
        added := true;
      } else {
        added := false;
      }
    }
  }
}
