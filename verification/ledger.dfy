/** The unified ledger: a fixed list of signed transactions with a running
    balance, a filtered view (search, type, date range) and three totals. */
module Ledger {
  import opened Seqs
  import opened Text
  import opened Calendar
  import opened Store

  datatype TxType = Income | Expense | LoanDisbursement | LoanPayment

  datatype Transaction = Transaction(
    id: int,
    date: Date,
    kind: TxType,
    description: string,
    category: string,
    amount: int,      // signed: money in is positive, money out negative
    balance: int,     // running balance shown beside the amount
    reference: Option<string>)

  /** The type selector: `all`, or one transaction type. */
  datatype TypeFilter = AllTypes | OnlyType(kind: TxType)

  /** The view's controls. A date bound is `None` when its input is cleared,
      which the source turns into an invalid date that compares false. */
  datatype Query = Query(searchTerm: string, typeFilter: TypeFilter, start: Option<Date>, end: Option<Date>)

  // ---------------------------------------------------------------- the filter

  predicate MatchesSearch(t: Transaction, term: string)
  {
    MatchesIgnoringCase(t.description, term) ||
    MatchesIgnoringCase(t.category, term) ||
    (t.reference.Some? && MatchesIgnoringCase(t.reference.value, term))
  }

  predicate MatchesType(t: Transaction, f: TypeFilter)
  {
    f.AllTypes? || t.kind == f.kind
  }

  predicate MatchesDateRange(t: Transaction, start: Option<Date>, end: Option<Date>)
  {
    start.Some? && end.Some? &&
    DayNumber(start.value) <= DayNumber(t.date) <= DayNumber(end.value)
  }

  predicate Matches(q: Query, t: Transaction)
  {
    MatchesSearch(t, q.searchTerm) && MatchesType(t, q.typeFilter) && MatchesDateRange(t, q.start, q.end)
  }

  function Matcher(q: Query): Transaction -> bool
  {
    t => Matches(q, t)
  }

  /** `filteredTransactions`. */
  function FilteredTransactions(ts: seq<Transaction>, q: Query): (r: seq<Transaction>)
    ensures |r| <= |ts|
    ensures forall t :: t in r ==> t in ts && Matches(q, t)
  {
    Filter(ts, Matcher(q))
  }

  /** The view is an order-preserving subsequence of the ledger holding exactly
      the transactions that pass all three tests. */
  lemma FilteredIsMatchingSubsequence(ts: seq<Transaction>, q: Query)
    ensures IsSubsequence(FilteredTransactions(ts, q), ts)
    ensures forall t :: t in FilteredTransactions(ts, q) <==> t in ts && Matches(q, t)
    ensures forall t ::
      multiset(FilteredTransactions(ts, q))[t] == if Matches(q, t) then multiset(ts)[t] else 0
  {
    FilterIsSubsequence(ts, Matcher(q));
    forall t ensures t in FilteredTransactions(ts, q) <==> t in ts && Matches(q, t) {
      FilterMembership(ts, Matcher(q), t);
    }
    forall t ensures multiset(FilteredTransactions(ts, q))[t] == if Matches(q, t) then multiset(ts)[t] else 0 {
      FilterCounts(ts, Matcher(q), t);
    }
  }

  /** An empty search, type `all` and a range covering every date leave the ledger as it is. */
  lemma UnrestrictedQueryIsIdentity(ts: seq<Transaction>, start: Date, end: Date)
    requires forall i :: 0 <= i < |ts| ==> DayNumber(start) <= DayNumber(ts[i].date) <= DayNumber(end)
    ensures FilteredTransactions(ts, Query("", AllTypes, Some(start), Some(end))) == ts
  {
    var q := Query("", AllTypes, Some(start), Some(end));
    forall i | 0 <= i < |ts| ensures Matcher(q)(ts[i]) {
      EmptyTermMatches(ts[i].description);
    }
    FilterKeepsAll(ts, Matcher(q));
  }

  /** With a type selected, every transaction shown has that type. */
  lemma SelectedTypeOnly(ts: seq<Transaction>, q: Query, k: TxType)
    requires q.typeFilter == OnlyType(k)
    ensures forall t :: t in FilteredTransactions(ts, q) ==> t.kind == k
  {
  }

  /** A range whose start lies after its end shows nothing; so does a cleared bound. */
  lemma EmptyRangeShowsNothing(ts: seq<Transaction>, q: Query)
    requires q.start.None? || q.end.None? || DayNumber(q.start.value) > DayNumber(q.end.value)
    ensures FilteredTransactions(ts, q) == []
  {
    FilterKeepsNone(ts, Matcher(q));
  }

  /** Both ends of the range are inclusive: a transaction dated on either bound
      is shown when it passes the other two tests. */
  lemma RangeBoundsInclusive(ts: seq<Transaction>, q: Query, t: Transaction)
    requires t in ts && MatchesSearch(t, q.searchTerm) && MatchesType(t, q.typeFilter)
    requires q.start == Some(t.date) || q.end == Some(t.date)
    requires q.start.Some? && q.end.Some? && DayNumber(q.start.value) <= DayNumber(q.end.value)
    ensures t in FilteredTransactions(ts, q)
  {
    FilterMembership(ts, Matcher(q), t);
  }

  /** A transaction without a reference can match the search only through its
      description or its category. */
  lemma NoReferenceSearch(t: Transaction, term: string)
    requires t.reference.None?
    ensures MatchesSearch(t, term) <==>
      Contains(Lower(t.description), Lower(term)) || Contains(Lower(t.category), Lower(term))
  {
  }

  // ---------------------------------------------------------------- the totals

  predicate IsInflow(t: Transaction)
  {
    t.kind == Income || t.kind == LoanDisbursement
  }

  predicate IsOutflow(t: Transaction)
  {
    t.kind == Expense || t.kind == LoanPayment
  }

  function Abs(x: int): (r: int)
    ensures r >= 0 && (r == x || r == -x)
  {
    if x < 0 then -x else x
  }

  function AbsAmount(t: Transaction): int
  {
    Abs(t.amount)
  }

  function Amount(t: Transaction): int
  {
    t.amount
  }

  /** `totalIncome`: Σ|amount| over income and loan disbursements, over the whole ledger. */
  function TotalIncome(ts: seq<Transaction>): (r: int)
    ensures r >= 0
  {
    SumOf(Filter(ts, IsInflow), AbsAmount)
  }

  /** `totalExpenses`: Σ|amount| over expenses and loan payments, over the whole ledger. */
  function TotalExpenses(ts: seq<Transaction>): (r: int)
    ensures r >= 0
  {
    SumOf(Filter(ts, IsOutflow), AbsAmount)
  }

  /** `netBalance`: never above the income total, never below minus the expense total. */
  function NetBalance(ts: seq<Transaction>): (r: int)
    ensures -TotalExpenses(ts) <= r <= TotalIncome(ts)
  {
    TotalIncome(ts) - TotalExpenses(ts)
  }

  /** Money in carries a non-negative amount, money out a non-positive one. */
  predicate SignConvention(ts: seq<Transaction>)
  {
    forall i :: 0 <= i < |ts| ==>
      (IsInflow(ts[i]) ==> ts[i].amount >= 0) && (IsOutflow(ts[i]) ==> ts[i].amount <= 0)
  }

  /** Under the sign convention the net balance is the plain sum of the signed amounts. */
  lemma {:induction false} NetBalanceIsSignedSum(ts: seq<Transaction>)
    requires SignConvention(ts)
    ensures NetBalance(ts) == SumOf(ts, Amount)
  {
    if ts != [] {
      assert SignConvention(ts[1..]) by {
        forall i | 0 <= i < |ts[1..]| ensures ts[1..][i] == ts[i + 1] { }
      }
      NetBalanceIsSignedSum(ts[1..]);
      SignedStep(ts);
    }
  }

  /** One row's contribution to the net balance is its signed amount. */
  lemma SignedStep(ts: seq<Transaction>)
    requires ts != [] && SignConvention(ts)
    ensures NetBalance(ts) - NetBalance(ts[1..]) == ts[0].amount
  {
    var t := ts[0];
    if IsInflow(t) {
      assert Filter(ts, IsOutflow) == Filter(ts[1..], IsOutflow);
      assert Filter(ts, IsInflow) == [t] + Filter(ts[1..], IsInflow);
    } else {
      assert Filter(ts, IsInflow) == Filter(ts[1..], IsInflow);
      assert Filter(ts, IsOutflow) == [t] + Filter(ts[1..], IsOutflow);
    }
  }

  /** Each row's balance is the previous row's balance plus its own amount,
      starting from the first row's amount, in display order. */
  predicate RunningBalance(ts: seq<Transaction>)
  {
    |ts| > 0 && ts[0].balance == ts[0].amount &&
    forall i :: 0 < i < |ts| ==> ts[i].balance == ts[i - 1].balance + ts[i].amount
  }

  /** With a running balance, each row's balance is the sum of the amounts up to it. */
  lemma {:induction false} BalanceIsPrefixSum(ts: seq<Transaction>, k: nat)
    requires RunningBalance(ts) && k < |ts|
    ensures ts[k].balance == SumOf(ts[..k + 1], Amount)
  {
    if k == 0 {
      assert ts[..1] == [ts[0]];
    } else {
      BalanceIsPrefixSum(ts, k - 1);
      assert ts[..k + 1] == ts[..k] + [ts[k]];
      SumOfAppend(ts[..k], [ts[k]], Amount);
    }
  }

  /** The seeded ledger. */
  const SeedTransactions: seq<Transaction> := [
    Transaction(1, Date(2024, 1, 15), Income, "Wheat Sale", "Crop Sales", 15000, 15000, Some("INV-001")),
    Transaction(2, Date(2024, 1, 14), Expense, "Fertilizer Purchase", "Fertilizers", -8500, 6500, Some("EXP-001")),
    Transaction(3, Date(2024, 1, 12), Income, "Rice Sale", "Crop Sales", 22000, 28500, Some("INV-002")),
    Transaction(4, Date(2024, 1, 10), Expense, "Tractor Maintenance", "Equipment", -4500, 24000, Some("EXP-002")),
    Transaction(5, Date(2024, 1, 8), LoanDisbursement, "Agricultural Loan Disbursement", "Loan", 100000, 124000, Some("LOAN-001")),
    Transaction(6, Date(2024, 1, 5), Expense, "Labor Wages", "Labor", -6000, 118000, Some("EXP-003")),
    Transaction(7, Date(2024, 1, 3), Expense, "Seed Purchase", "Seeds", -12000, 106000, Some("EXP-004")),
    Transaction(8, Date(2024, 1, 2), LoanPayment, "EMI Payment - Agricultural Bank", "Loan Payment", -10000, 96000, Some("EMI-001"))
  ]

  /** The seeded ledger is well formed and its last balance, 96000, is the net balance. */
  lemma SeedLedgerConsistent()
    ensures RunningBalance(SeedTransactions) && SignConvention(SeedTransactions)
    ensures SeedTransactions[7].balance == 96000 == NetBalance(SeedTransactions)
  {
    SeedRunningBalance();
    SeedSignConvention();
    SeedSignedSum();
    NetBalanceIsSignedSum(SeedTransactions);
  }

  lemma SeedRunningBalance()
    ensures RunningBalance(SeedTransactions)
  {
  }

  lemma SeedSignConvention()
    ensures SignConvention(SeedTransactions)
  {
  }

  lemma SeedSignedSum()
    ensures SumOf(SeedTransactions, Amount) == 96000
  {
    var ts := SeedTransactions;
    assert SumOf(ts[7..], Amount) == -10000;
    assert SumOf(ts[6..], Amount) == -22000;
    assert SumOf(ts[5..], Amount) == -28000;
    assert SumOf(ts[4..], Amount) == 72000;
    assert SumOf(ts[3..], Amount) == 67500;
    assert SumOf(ts[2..], Amount) == 89500;
    assert SumOf(ts[1..], Amount) == 81000;

  }

  /** With the default controls (empty search, `all`, January 2024) every seeded row is shown. */
  lemma SeedDefaultViewShowsAll()
    ensures FilteredTransactions(SeedTransactions, Query("", AllTypes, Some(Date(2024, 1, 1)), Some(Date(2024, 1, 31)))) == SeedTransactions
  {
    var ts := SeedTransactions;
    forall i | 0 <= i < |ts|
      ensures DayNumber(Date(2024, 1, 1)) <= DayNumber(ts[i].date) <= DayNumber(Date(2024, 1, 31))
    {
      assert ts[i].date.year == 2024 && ts[i].date.month == 1 && 1 <= ts[i].date.day <= 31;
      SameMonthDays(2024, 1, 1, ts[i].date.day);
      SameMonthDays(2024, 1, ts[i].date.day, 31);
    }
    UnrestrictedQueryIsIdentity(ts, Date(2024, 1, 1), Date(2024, 1, 31));
  }
}
