/** Accounting settings: the currency and its symbol, the financial-year start
    as `MM-DD`, and the editable income and expense category lists. */
module Settings {
  import opened Seqs
  import opened Calendar
  import opened Store

  datatype Notifications = Notifications(emailReminders: bool, smsAlerts: bool, pushNotifications: bool)

  // ------------------------------------------------------------ category lists

  predicate NoDuplicates(list: seq<string>)
  {
    forall i, j :: 0 <= i < j < |list| ==> list[i] != list[j]
  }

  /** The list after an add: the category goes at the tail when it is non-empty
      and not yet present; otherwise the list is unchanged. */
  function WithCategory(list: seq<string>, c: string): (r: seq<string>)
    ensures |list| <= |r| <= |list| + 1 && r[..|list|] == list
    ensures forall x :: x in r <==> x in list || (x == c && c != "")
    ensures NoDuplicates(list) ==> NoDuplicates(r)
  {
    if c != "" && c !in list then list + [c] else list
  }

  function KeepOther(c: string): string -> bool
  {
    (x: string) => x != c
  }

  /** The list after a remove: every occurrence of the category dropped. */
  function WithoutCategory(list: seq<string>, c: string): (r: seq<string>)
    ensures |r| <= |list| && c !in r
    ensures forall x :: x in r ==> x in list
  {
    Filter(list, KeepOther(c))
  }

  /** Adding keeps a duplicate-free list duplicate-free, and adding twice is adding once. */
  lemma WithCategoryKeepsListASet(list: seq<string>, c: string)
    requires NoDuplicates(list)
    ensures NoDuplicates(WithCategory(list, c))
    ensures WithCategory(WithCategory(list, c), c) == WithCategory(list, c)
    ensures c != "" ==> c in WithCategory(list, c)
  {
  }

  /** Removing drops every occurrence, keeps the other categories in order, and
      is a no-op for an absent category. */
  lemma WithoutCategorySpec(list: seq<string>, c: string)
    ensures c !in WithoutCategory(list, c)
    ensures IsSubsequence(WithoutCategory(list, c), list)
    ensures forall x :: x != c ==> (x in WithoutCategory(list, c) <==> x in list)
    ensures c !in list ==> WithoutCategory(list, c) == list
  {
    FilterIsSubsequence(list, KeepOther(c));
    forall x ensures x in WithoutCategory(list, c) <==> x in list && x != c {
      FilterMembership(list, KeepOther(c), x);
    }
    if c !in list {
      FilterKeepsAll(list, KeepOther(c));
    }
  }

  /** Adding a new category and then removing it gives back the original list. */
  lemma AddThenRemoveRestores(list: seq<string>, c: string)
    requires c != "" && c !in list
    ensures WithoutCategory(WithCategory(list, c), c) == list
  {
    FilterAppend(list, [c], KeepOther(c));
    FilterKeepsAll(list, KeepOther(c));
    FilterKeepsNone([c], KeepOther(c));
  }

  const SeedIncomeCategories: seq<string> :=
    ["Crop Sales", "Dairy", "Livestock", "Services", "Government Subsidy", "Other"]

  const SeedExpenseCategories: seq<string> :=
    ["Seeds", "Fertilizers", "Pesticides", "Equipment", "Labor", "Utilities", "Transport", "Other"]

  // ------------------------------------------------------------ currency

  datatype Currency = Currency(code: string, symbol: string, name: string)

  const Currencies: seq<Currency> := [
    Currency("INR", "\U{20B9}", "Indian Rupee"),
    Currency("USD", "$", "US Dollar"),
    Currency("EUR", "\U{20AC}", "Euro"),
    Currency("GBP", "\U{00A3}", "British Pound")
  ]

  /** The rupee sign, the default symbol. */
  const Rupee: string := "\U{20B9}"

  /** `currencies.find(c => c.code === code)`: the first entry with that code. */
  function Find(table: seq<Currency>, code: string): (r: Option<Currency>)
    ensures r.Some? ==> r.value in table && r.value.code == code
    ensures r.None? <==> forall i :: 0 <= i < |table| ==> table[i].code != code
  {
    if table == [] then None
    else if table[0].code == code then Some(table[0])
    else Find(table[1..], code)
  }

  /** `selectedCurrency?.symbol || '₹'`: the symbol of the matching entry, or the
      rupee sign when the code is unknown or its symbol empty. */
  function SymbolFor(code: string): (sym: string)
    ensures sym != ""
    ensures (forall i :: 0 <= i < |Currencies| ==> Currencies[i].code != code) ==> sym == Rupee
  {
    match Find(Currencies, code)
    case Some(c) => if c.symbol != "" then c.symbol else Rupee
    case None => Rupee
  }

  /** `find` returns an entry whose code no earlier entry has. */
  lemma {:induction false} FindsFirstWithCode(table: seq<Currency>, i: nat)
    requires i < |table|
    requires forall j :: 0 <= j < i ==> table[j].code != table[i].code
    ensures Find(table, table[i].code) == Some(table[i])
  {
    if i > 0 {
      FindsFirstWithCode(table[1..], i - 1);
    }
  }

  /** Every code in the table selects its own symbol. */
  lemma KnownCodesSelectTheirSymbol(i: nat)
    requires i < |Currencies|
    ensures SymbolFor(Currencies[i].code) == Currencies[i].symbol
  {
    forall j | 0 <= j < i ensures Currencies[j].code != Currencies[i].code {
      assert Currencies[j].code[0] != Currencies[i].code[0];
    }
    FindsFirstWithCode(Currencies, i);
  }

  // ------------------------------------------------------------ financial year start

  function Digit(n: int): char
    requires 0 <= n < 10
  {
    ('0' as int + n) as char
  }

  /** `n.toString().padStart(2, '0')` for 0 <= n < 100. */
  function Pad2(n: int): (s: string)
    requires 0 <= n < 100
    ensures |s| == 2 && '0' <= s[0] <= '9' && '0' <= s[1] <= '9'
    ensures 10 * DigitValue(s[0]) + DigitValue(s[1]) == n
  {
    [Digit(n / 10), Digit(n % 10)]
  }

  function DigitValue(c: char): int
  {
    c as int - '0' as int
  }

  /** The stored `MM-DD` text for a picked date; a cleared input gives an
      invalid date, whose parts print as `NaN`. */
  function MonthDay(picked: Option<Date>): (s: string)
    requires picked.Some? ==> Valid(picked.value)
    ensures picked.Some? ==>
      |s| == 5 && s[2] == '-' && forall k :: 0 <= k < 5 && k != 2 ==> '0' <= s[k] <= '9'
  {
    match picked
    case Some(d) => Pad2(d.month) + "-" + Pad2(d.day)
    case None => "NaN-NaN"
  }

  /** Reading the two numbers back from `MM-DD` gives the month and day picked. */
  lemma MonthDayRoundTrip(d: Date)
    requires Valid(d)
    ensures var s := MonthDay(Some(d));
      10 * DigitValue(s[0]) + DigitValue(s[1]) == d.month &&
      10 * DigitValue(s[3]) + DigitValue(s[4]) == d.day
  {
    var s := MonthDay(Some(d));
    assert s[0] == Digit(d.month / 10) && s[1] == Digit(d.month % 10);
    assert s[3] == Digit(d.day / 10) && s[4] == Digit(d.day % 10);
  }

  // ------------------------------------------------------------ the settings object

  class AccountingSettings {
    var currency: string
    var currencySymbol: string
    var financialYearStart: string
    var language: string
    var dateFormat: string
    var backupFrequency: string
    var notifications: Notifications
    var incomeCategories: seq<string>
    var expenseCategories: seq<string>
    var newIncomeCategory: string
    var newExpenseCategory: string

    /** Both category lists are duplicate-free. */
    ghost predicate Valid()
      reads this
    {
      NoDuplicates(incomeCategories) && NoDuplicates(expenseCategories)
    }

    constructor ()
      ensures Valid()
      ensures currency == "INR" && currencySymbol == Rupee && financialYearStart == "04-01"
      ensures language == "english" && dateFormat == "DD-MM-YYYY" && backupFrequency == "weekly"
      ensures notifications == Notifications(true, false, true)
      ensures incomeCategories == SeedIncomeCategories && expenseCategories == SeedExpenseCategories
      ensures newIncomeCategory == "" && newExpenseCategory == ""
    {
      currency, currencySymbol, financialYearStart := "INR", Rupee, "04-01";
      language, dateFormat, backupFrequency := "english", "DD-MM-YYYY", "weekly";
      notifications := Notifications(true, false, true);
      incomeCategories, expenseCategories := SeedIncomeCategories, SeedExpenseCategories;
      newIncomeCategory, newExpenseCategory := "", "";
    }

    /** Typing into the new-income-category box. */
    method EditNewIncomeCategory(c: string)
      modifies this`newIncomeCategory
      ensures newIncomeCategory == c
    {
      newIncomeCategory := c;
    }

    /** Typing into the new-expense-category box. */
    method EditNewExpenseCategory(c: string)
      modifies this`newExpenseCategory
      ensures newExpenseCategory == c
    {
      newExpenseCategory := c;
    }

    /** `addIncomeCategory`: append the typed category when it is non-empty and
        new, then clear the box; otherwise change nothing. Only the income list
        and the box change. */
    method AddIncomeCategory() returns (added: bool)
      requires Valid()
      modifies this`incomeCategories, this`newIncomeCategory
      ensures Valid()
      ensures added <==> old(newIncomeCategory) != "" && old(newIncomeCategory) !in old(incomeCategories)
      ensures incomeCategories == WithCategory(old(incomeCategories), old(newIncomeCategory))
      ensures newIncomeCategory == if added then "" else old(newIncomeCategory)
    {
      WithCategoryKeepsListASet(incomeCategories, newIncomeCategory);
      added := newIncomeCategory != "" && newIncomeCategory !in incomeCategories;
      if added {
        incomeCategories := incomeCategories + [newIncomeCategory];
        newIncomeCategory := "";
      }
    }

    /** `addExpenseCategory`, the same for the expense list. */
    method AddExpenseCategory() returns (added: bool)
      requires Valid()
      modifies this`expenseCategories, this`newExpenseCategory
      ensures Valid()
      ensures added <==> old(newExpenseCategory) != "" && old(newExpenseCategory) !in old(expenseCategories)
      ensures expenseCategories == WithCategory(old(expenseCategories), old(newExpenseCategory))
      ensures newExpenseCategory == if added then "" else old(newExpenseCategory)
    {
      WithCategoryKeepsListASet(expenseCategories, newExpenseCategory);
      added := newExpenseCategory != "" && newExpenseCategory !in expenseCategories;
      if added {
        expenseCategories := expenseCategories + [newExpenseCategory];
        newExpenseCategory := "";
      }
    }

    /** `removeIncomeCategory`: only the income list changes. */
    method RemoveIncomeCategory(c: string)
      requires Valid()
      modifies this`incomeCategories
      ensures Valid()
      ensures incomeCategories == WithoutCategory(old(incomeCategories), c)
    {
      WithoutCategoryKeepsNoDuplicates(incomeCategories, c);
      incomeCategories := WithoutCategory(incomeCategories, c);
    }

    /** `removeExpenseCategory`: only the expense list changes. */
    method RemoveExpenseCategory(c: string)
      requires Valid()
      modifies this`expenseCategories
      ensures Valid()
      ensures expenseCategories == WithoutCategory(old(expenseCategories), c)
    {
      WithoutCategoryKeepsNoDuplicates(expenseCategories, c);
      expenseCategories := WithoutCategory(expenseCategories, c);
    }

    /** The currency selector: the code and its symbol, nothing else. */
    method SelectCurrency(code: string)
      modifies this`currency, this`currencySymbol
      ensures currency == code && currencySymbol == SymbolFor(code)
    {
      currency := code;
      currencySymbol := SymbolFor(code);
    }

    /** The financial-year date picker: only the `MM-DD` text changes. */
    method PickFinancialYearStart(picked: Option<Date>)
      requires picked.Some? ==> Calendar.Valid(picked.value)
      modifies this`financialYearStart
      ensures financialYearStart == MonthDay(picked)
    {
      financialYearStart := MonthDay(picked);
    }
  }

  /** Removing from a duplicate-free list leaves it duplicate-free. */
  lemma {:induction false} WithoutCategoryKeepsNoDuplicates(list: seq<string>, c: string)
    requires NoDuplicates(list)
    ensures NoDuplicates(WithoutCategory(list, c))
  {
    if list != [] {
      var rest := list[1..];
      assert NoDuplicates(rest) by {
        forall i, j | 0 <= i < j < |rest| ensures rest[i] != rest[j] {
          assert rest[i] == list[i + 1] && rest[j] == list[j + 1];
        }
      }
      WithoutCategoryKeepsNoDuplicates(rest, c);
      FilterMembership(rest, KeepOther(c), list[0]);
      if list[0] != c {
        var r := WithoutCategory(list, c);
        assert r == [list[0]] + WithoutCategory(rest, c);
        assert list[0] !in rest;
      } else {
        assert WithoutCategory(list, c) == WithoutCategory(rest, c);
      }
    }
  }
}
