/** The reminder system: reminders that can be added, marked completed and
    deleted, their status partitions, the amount still due and the days left
    until each due date. */
module Reminders {
  import opened Seqs
  import opened Calendar
  import opened Store

  datatype ReminderType = Emi | Bill | Recurring | Custom
  datatype ReminderStatus = Pending | Completed | Overdue
  datatype Priority = High | Medium | Low

  datatype Reminder = Reminder(
    id: int,
    title: string,
    description: string,
    dueDate: Date,
    amount: Option<int>,
    kind: ReminderType,
    status: ReminderStatus,
    priority: Priority)

  /** The add form; the due date and the amount are `None` while blank. */
  datatype ReminderForm = ReminderForm(
    title: string,
    description: string,
    dueDate: Option<Date>,
    amount: Option<int>,
    kind: ReminderType,
    priority: Priority)

  const BlankForm: ReminderForm := ReminderForm("", "", None, None, Custom, Medium)

  /** The add handler's guard: a title and a due date. */
  predicate Complete(f: ReminderForm)
  {
    f.title != "" && f.dueDate.Some?
  }

  /** The reminder an add creates: always pending, and without an amount when
      the amount field was blank. */
  function RecordFrom(f: ReminderForm, id: int): (r: Reminder)
    requires Complete(f)
    ensures r.id == id && r.status == Pending
    ensures r.amount.None? <==> f.amount.None?
  {
    Reminder(id, f.title, f.description, f.dueDate.value, f.amount, f.kind, Pending, f.priority)
  }

  // ------------------------------------------------------------ update and delete

  function CompleteIfId(r: Reminder, id: int): Reminder
  {
    if r.id == id then r.(status := Completed) else r
  }

  /** `markCompleted`'s new list: every reminder with `id` becomes completed. */
  function MarkedCompleted(s: seq<Reminder>, id: int): (r: seq<Reminder>)
    ensures |r| == |s|
    ensures forall i :: 0 <= i < |s| ==> r[i] == CompleteIfId(s[i], id)
  {
    if s == [] then [] else [CompleteIfId(s[0], id)] + MarkedCompleted(s[1..], id)
  }

  /** Marking completed touches only the reminders with that id, and only their
      status; doing it twice is doing it once. */
  lemma MarkedCompletedSpec(s: seq<Reminder>, id: int)
    ensures forall i :: 0 <= i < |s| && s[i].id != id ==> MarkedCompleted(s, id)[i] == s[i]
    ensures forall i :: 0 <= i < |s| && s[i].id == id ==>
      MarkedCompleted(s, id)[i] == s[i].(status := Completed)
    ensures MarkedCompleted(MarkedCompleted(s, id), id) == MarkedCompleted(s, id)
  {
  }

  function KeepUnless(id: int): Reminder -> bool
  {
    (r: Reminder) => r.id != id
  }

  /** `deleteReminder`'s new list. */
  function Deleted(s: seq<Reminder>, id: int): (r: seq<Reminder>)
    ensures |r| <= |s|
    ensures forall x :: x in r ==> x in s && x.id != id
  {
    Filter(s, KeepUnless(id))
  }

  /** Deleting removes every reminder with the id, keeps the rest in order, and
      changes nothing when no reminder has the id. */
  lemma DeletedSpec(s: seq<Reminder>, id: int)
    ensures IsSubsequence(Deleted(s, id), s)
    ensures forall r :: r in Deleted(s, id) <==> r in s && r.id != id
    ensures (forall i :: 0 <= i < |s| ==> s[i].id != id) ==> Deleted(s, id) == s
    ensures forall r :: multiset(Deleted(s, id))[r] == if r.id != id then multiset(s)[r] else 0
  {
    FilterIsSubsequence(s, KeepUnless(id));
    forall r ensures r in Deleted(s, id) <==> r in s && r.id != id {
      FilterMembership(s, KeepUnless(id), r);
    }
    if forall i :: 0 <= i < |s| ==> s[i].id != id {
      FilterKeepsAll(s, KeepUnless(id));
    }
    forall r ensures multiset(Deleted(s, id))[r] == if r.id != id then multiset(s)[r] else 0 {
      FilterCounts(s, KeepUnless(id), r);
    }
  }

  /** Deleting the reminder at position `k`, the only one with its id, shortens the list by one. */
  lemma DeletedUniqueShortens(s: seq<Reminder>, k: nat)
    requires k < |s|
    requires forall i :: 0 <= i < |s| && i != k ==> s[i].id != s[k].id
    ensures Deleted(s, s[k].id) == s[..k] + s[k + 1..]
  {
    var keep := KeepUnless(s[k].id);
    forall i | 0 <= i < |s| && i != k ensures keep(s[i]) { }
    FilterDropsOne(s, k, keep);
  }

  /** Ids are not unique: after deleting any reminder but the one whose id is
      the list length, the next add reuses that length as its id, so two
      reminders share it. */
  lemma DeleteThenAddDuplicatesId(s: seq<Reminder>, k: nat, m: nat, f: ReminderForm)
    requires k < |s| && m < |s| && k != m
    requires s[m].id == |s|
    requires forall i :: 0 <= i < |s| && i != k ==> s[i].id != s[k].id
    requires Complete(f)
    ensures var after := Deleted(s, s[k].id);
      var added := [RecordFrom(f, NextId(after))] + after;
      exists i, j :: 0 <= i < j < |added| && added[i].id == added[j].id
  {
    var after := Deleted(s, s[k].id);
    DeletedUniqueShortens(s, k);
    assert |after| == |s| - 1;
    var added := [RecordFrom(f, NextId(after))] + after;
    var j := if m < k then m + 1 else m;
    assert added[j] == s[m];
    assert added[0].id == |s| == added[j].id;
  }

  // ------------------------------------------------------------ derived figures

  /** `getDaysUntilDue`: the due date is midnight UTC of its day and `nowMs`
      the current time in milliseconds since the epoch; the difference is
      rounded up to whole days. The days left are whole calendar days: the due day minus the current
      day, so 0 on the due day itself and -1 on the day after. */
  function DaysUntilDue(due: Date, nowMs: int): (days: int)
    ensures days == DayNumber(due) - nowMs / MsPerDay
    ensures nowMs / MsPerDay == DayNumber(due) ==> days == 0
    ensures nowMs / MsPerDay == DayNumber(due) + 1 ==> days == -1
  {
    var elapsed := nowMs - DayNumber(due) * MsPerDay;
    assert elapsed == (nowMs / MsPerDay - DayNumber(due)) * MsPerDay + nowMs % MsPerDay;
    -(elapsed / MsPerDay)
  }

  /** What the list shows beside a due date. */
  datatype DueLabel = DaysLeft(days: nat) | DaysOverdue(days: nat)

  function LabelFor(daysUntilDue: int): (l: DueLabel)
    ensures l.DaysLeft? <==> daysUntilDue >= 0
    ensures l.DaysLeft? ==> l.days == daysUntilDue
    ensures l.DaysOverdue? ==> l.days == -daysUntilDue > 0
  {
    if daysUntilDue >= 0 then DaysLeft(daysUntilDue) else DaysOverdue(-daysUntilDue)
  }

  function UpcomingTest(nowMs: int): Reminder -> bool
  {
    (r: Reminder) => r.status == Pending && DaysUntilDue(r.dueDate, nowMs) <= 7
  }

  predicate IsOverdue(r: Reminder) { r.status == Overdue }

  predicate IsCompleted(r: Reminder) { r.status == Completed }

  /** `upcomingReminders`. */
  function Upcoming(s: seq<Reminder>, nowMs: int): (r: seq<Reminder>)
    ensures forall x :: x in r <==> x in s && x.status == Pending && DaysUntilDue(x.dueDate, nowMs) <= 7
    ensures forall x ::
      multiset(r)[x] == if x.status == Pending && DaysUntilDue(x.dueDate, nowMs) <= 7 then multiset(s)[x] else 0
  {
    FilterExact(s, UpcomingTest(nowMs));
    Filter(s, UpcomingTest(nowMs))
  }

  /** `overdueReminders`. */
  function OverdueList(s: seq<Reminder>): (r: seq<Reminder>)
    ensures forall x :: x in r <==> x in s && x.status == Overdue
    ensures forall x :: multiset(r)[x] == if x.status == Overdue then multiset(s)[x] else 0
  {
    FilterExact(s, IsOverdue);
    Filter(s, IsOverdue)
  }

  /** `completedReminders`. */
  function CompletedList(s: seq<Reminder>): (r: seq<Reminder>)
    ensures forall x :: x in r <==> x in s && x.status == Completed
    ensures forall x :: multiset(r)[x] == if x.status == Completed then multiset(s)[x] else 0
  {
    FilterExact(s, IsCompleted);
    Filter(s, IsCompleted)
  }

  /** The partitions go by the stored status: a pending reminder already past
      its due date is counted as upcoming, not as overdue. */
  lemma PastDuePendingIsUpcoming(s: seq<Reminder>, nowMs: int, r: Reminder)
    requires r in s && r.status == Pending && DaysUntilDue(r.dueDate, nowMs) < 0
    ensures r in Upcoming(s, nowMs)
    ensures r !in OverdueList(s) && r !in CompletedList(s)
  {
    FilterMembership(s, UpcomingTest(nowMs), r);
  }

  /** What a reminder contributes to the amount due: its amount when it is
      pending and has one. */
  function DueAmount(r: Reminder): int
  {
    if r.amount.Some? then r.amount.value else 0
  }

  predicate PendingWithAmount(r: Reminder)
  {
    r.status == Pending && r.amount.Some?
  }

  /** The "Total Amount Due" card. */
  function TotalDue(s: seq<Reminder>): (r: int)
    ensures (forall i :: 0 <= i < |s| ==> s[i].amount.Some? ==> s[i].amount.value >= 0) ==> r >= 0
  {
    SumOfFilterAtMost(s, PendingWithAmount, DueAmount);
    SumOf(Filter(s, PendingWithAmount), DueAmount)
  }

  /** With non-negative amounts, marking a reminder completed never raises the amount due. */
  lemma MarkCompletedNeverRaisesDue(s: seq<Reminder>, id: int)
    requires forall i :: 0 <= i < |s| ==> s[i].amount.Some? ==> s[i].amount.value >= 0
    ensures TotalDue(MarkedCompleted(s, id)) <= TotalDue(s)
  {
    DueSumNeverRises(s, id);
  }

  lemma {:induction false} DueSumNeverRises(s: seq<Reminder>, id: int)
    requires forall i :: 0 <= i < |s| ==> s[i].amount.Some? ==> s[i].amount.value >= 0
    ensures SumOf(Filter(MarkedCompleted(s, id), PendingWithAmount), DueAmount)
      <= SumOf(Filter(s, PendingWithAmount), DueAmount)
  {
    if s != [] {
      var m := MarkedCompleted(s, id);
      assert m[1..] == MarkedCompleted(s[1..], id);
      DueSumNeverRises(s[1..], id);
      if PendingWithAmount(s[0]) {
        assert Filter(s, PendingWithAmount)[1..] == Filter(s[1..], PendingWithAmount);
      } else {
        assert Filter(s, PendingWithAmount) == Filter(s[1..], PendingWithAmount);
      }
      if PendingWithAmount(m[0]) {
        assert Filter(m, PendingWithAmount)[1..] == Filter(m[1..], PendingWithAmount);
      } else {
        assert Filter(m, PendingWithAmount) == Filter(m[1..], PendingWithAmount);
      }
    }
  }

  const SeedReminders: seq<Reminder> := [
    Reminder(1, "Agricultural Bank EMI", "Monthly EMI payment for tractor loan", Date(2024, 2, 15), Some(10000), Emi, Pending, High),
    Reminder(2, "Electricity Bill", "Monthly electricity bill for irrigation", Date(2024, 2, 10), Some(3500), Bill, Overdue, High),
    Reminder(3, "Fertilizer Purchase", "Buy fertilizer for next season", Date(2024, 2, 20), Some(8000), Recurring, Pending, Medium),
    Reminder(4, "Insurance Premium", "Crop insurance premium payment", Date(2024, 2, 25), Some(5000), Bill, Pending, Medium),
    Reminder(5, "Seed Purchase", "Purchase seeds for summer crop", Date(2024, 1, 30), Some(12000), Custom, Completed, Low)
  ]

  /** On the seeded list, deleting reminder 2 and then adding one yields two reminders with id 5. */
  lemma SeedDeleteTwoThenAdd(f: ReminderForm)
    requires Complete(f)
    ensures var after := Deleted(SeedReminders, 2);
      var added := [RecordFrom(f, NextId(after))] + after;
      added[0].id == 5 && added[4].id == 5
  {
    DeletedUniqueShortens(SeedReminders, 1);
  }

  class ReminderSystem {
    var reminders: seq<Reminder>
    var form: ReminderForm
    var showAddForm: bool

    constructor ()
      ensures reminders == SeedReminders && form == BlankForm && !showAddForm
    {
      reminders := SeedReminders;
      form := BlankForm;
      showAddForm := false;
    }

    /** Typing into the add form. */
    method EditForm(f: ReminderForm)
      modifies this
      ensures form == f
      ensures reminders == old(reminders) && showAddForm == old(showAddForm)
    {
      form := f;
    }

    /** `handleAddReminder`: with a title and a due date, put a new pending
        reminder with id `length + 1` at the head and reset the form; otherwise
        change nothing. */
    method AddReminder() returns (added: bool)
      modifies this
      ensures added <==> Complete(old(form))
      ensures added ==> reminders == [RecordFrom(old(form), |old(reminders)| + 1)] + old(reminders)
      ensures added ==> form == BlankForm && !showAddForm
      ensures !added ==> reminders == old(reminders) && form == old(form) && showAddForm == old(showAddForm)
    {
      if Complete(form) {
        reminders := [RecordFrom(form, |reminders| + 1)] + reminders;
        form := BlankForm;
        showAddForm := false;
        added := true;
      } else {
        added := false;
      }
    }

    /** `markCompleted`. */
    method MarkCompleted(id: int)
      modifies this
      ensures reminders == MarkedCompleted(old(reminders), id)
      ensures form == old(form) && showAddForm == old(showAddForm)
    {
      reminders := MarkedCompleted(reminders, id);
    }

    /** `deleteReminder`. */
    method DeleteReminder(id: int)
      modifies this
      ensures reminders == Deleted(old(reminders), id)
      ensures form == old(form) && showAddForm == old(showAddForm)
    {
      reminders := Deleted(reminders, id);
    }
  }
}
