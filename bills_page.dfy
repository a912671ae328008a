/**
 * The rules of the bills page: the `billData` record built from the dialog, the submit
 * handler, the monthly equivalent of each billing frequency and their total, the days until
 * a bill is due, the upcoming list and the status line. "Today" is the parameter `now`.
 */
module BillsPage {
  import opened Wrappers
  import opened Types
  import Seqs
  import Ids
  import Storage
  import Numbers

  /**
   * The dialog's fields: the amount as parsed, the due date as a time value, the reminder
   * as typed together with its `parseInt` value, and the notes as typed.
   */
  datatype BillForm = BillForm(
    name: string,
    amount: real,
    category: BillCategory,
    frequency: BillFrequency,
    nextDueDate: int,
    autoPayEnabled: bool,
    reminderText: string,
    reminderValue: int,
    notes: string)

  /** `billData`: an empty reminder and empty notes become `undefined`; the id is assigned later. */
  function BillData(form: BillForm): (b: Bill)
    ensures b.reminderDays.None? <==> form.reminderText == ""
    ensures b.reminderDays.Some? ==> b.reminderDays.value == form.reminderValue
    ensures b.notes.None? <==> form.notes == ""
    ensures b.notes.Some? ==> b.notes.value == form.notes
    ensures b.name == form.name && b.amount == form.amount && b.category == form.category
    ensures b.frequency == form.frequency && b.nextDueDate == form.nextDueDate
    ensures b.autoPayEnabled == form.autoPayEnabled
  {
    Bill("", form.name, form.amount, form.category, form.frequency, form.nextDueDate,
         form.autoPayEnabled,
         if form.reminderText != "" then Some(form.reminderValue) else None,
         if form.notes != "" then Some(form.notes) else None)
  }

  /** `billData` as the updates object of an edit: every field but the id is present. */
  function EditPatch(form: BillForm): Storage.BillPatch {
    var b := BillData(form);
    Storage.BillPatch(None, Some(b.name), Some(b.amount), Some(b.category), Some(b.frequency),
                      Some(b.nextDueDate), Some(b.autoPayEnabled), Some(b.reminderDays), Some(b.notes))
  }

  /** An edit replaces every field of the bill with the dialog's, the id excepted. */
  lemma EditReplacesAll(form: BillForm, b: Bill)
    ensures EditPatch(form).ApplyTo(b) == BillData(form).(id := b.id)
  {
  }

  /** The document a submit saves, or None when the edited bill is no longer stored. */
  function Submitted(d: FinancialData, form: BillForm, editing: Option<Bill>, newId: string): Option<FinancialData> {
    match editing
    case Some(b) =>
      var i := Ids.IndexOfId(d.bills, Storage.BillId, b.id);
      if i < 0 then None else Some(d.(bills := d.bills[i := EditPatch(form).ApplyTo(d.bills[i])]))
    case None =>
      Some(d.(bills := d.bills + [BillData(form).(id := newId)]))
  }

  /**
   * A new bill is appended with the new id; an edit rewrites the first bill carrying the
   * edited id, keeping that id, and leaves the other bills and arrays alone.
   */
  lemma SubmitEffect(d: FinancialData, form: BillForm, editing: Option<Bill>, newId: string)
    ensures editing.None? ==>
      Submitted(d, form, editing, newId) == Some(d.(bills := d.bills + [BillData(form).(id := newId)]))
    ensures editing.Some? ==>
      (Submitted(d, form, editing, newId).None? <==> editing.value.id !in Ids.Keys(d.bills, Storage.BillId))
    ensures editing.Some? && Submitted(d, form, editing, newId).Some? ==>
      var r := Submitted(d, form, editing, newId).value;
      var i := Ids.IndexOfId(d.bills, Storage.BillId, editing.value.id);
      && 0 <= i < |d.bills|
      && r.(bills := d.bills) == d
      && |r.bills| == |d.bills|
      && r.bills[i] == BillData(form).(id := editing.value.id)
      && (forall k | 0 <= k < |d.bills| && k != i :: r.bills[k] == d.bills[k])
  {
    if editing.Some? {
      Ids.FindById(d.bills, Storage.BillId, editing.value.id);
      var i := Ids.IndexOfId(d.bills, Storage.BillId, editing.value.id);
      if 0 <= i {
        EditReplacesAll(form, d.bills[i]);
      }
    }
  }

  /** `handleSubmit`: there is no validation; the bill is updated or added through the store. */
  method HandleSubmit(store: Storage.Store, form: BillForm, editing: Option<Bill>, newId: string, now: int)
    modifies store
    ensures store.storage == old(
      match Submitted(store.Loaded(now), form, editing, newId)
      case None => store.Seeded(now)
      case Some(d) => store.Saved(d))
  {
    if editing.Some? {
      store.UpdateBill(editing.value.id, EditPatch(form), now);
    } else {
      store.AddBill(BillData(form), newId, now);
    }
  }

  /* ---------- the monthly total ---------- */

  /** How many months one billing period lasts, taking a month as 30 days or 4 weeks. */
  function MonthsPerPeriod(f: BillFrequency): real {
    match f
    case Daily => 1.0 / 30.0
    case Weekly => 1.0 / 4.0
    case Monthly => 1.0
    case Quarterly => 3.0
    case Yearly => 12.0
  }

  /** The `switch` of `calculateMonthlyTotal`: what one bill costs per month. */
  function MonthlyAmount(b: Bill): (r: real)
    ensures r * MonthsPerPeriod(b.frequency) == b.amount
    ensures b.amount >= 0.0 ==> r >= 0.0
  {
    match b.frequency
    case Daily => b.amount * 30.0
    case Weekly => b.amount * 4.0
    case Quarterly => b.amount / 3.0
    case Yearly => b.amount / 12.0
    case Monthly => b.amount
  }

  /** `calculateMonthlyTotal`. */
  function MonthlyTotal(bills: seq<Bill>): real {
    Seqs.Sum(bills, MonthlyAmount)
  }

  /**
   * No bills cost nothing; adding a bill adds its monthly equivalent; bills with
   * non-negative amounts never make the total negative.
   */
  lemma MonthlyTotalRule(bills: seq<Bill>, b: Bill)
    ensures MonthlyTotal([]) == 0.0
    ensures MonthlyTotal(bills + [b]) == MonthlyTotal(bills) + MonthlyAmount(b)
    ensures (forall i :: 0 <= i < |bills| ==> bills[i].amount >= 0.0) ==> MonthlyTotal(bills) >= 0.0
  {
    Seqs.SumAppend(bills, [b], MonthlyAmount);
    assert [b][..0] == [];
    if forall i :: 0 <= i < |bills| ==> bills[i].amount >= 0.0 {
      Seqs.SumNonNegative(bills, MonthlyAmount);
    }
  }

  /* ---------- due dates ---------- */

  /** `getDaysUntilDue`: whole days from now to the due date, rounded up. */
  function DaysUntilDue(b: Bill, now: int): int {
    Numbers.DaysUntil(b.nextDueDate, now)
  }

  /** Due within the coming week, today included. */
  predicate IsUpcoming(b: Bill, now: int) {
    0 <= DaysUntilDue(b, now) <= 7
  }

  function UpcomingAt(now: int): Bill -> bool {
    (b: Bill) => IsUpcoming(b, now)
  }

  function DueKey(now: int): Bill -> real {
    (b: Bill) => DaysUntilDue(b, now) as real
  }

  /** `upcomingBills`: the bills due within a week, soonest first. */
  function UpcomingBills(bills: seq<Bill>, now: int): seq<Bill> {
    Seqs.SortBy(Seqs.Filter(bills, UpcomingAt(now)), DueKey(now))
  }

  /**
   * The upcoming list holds exactly the bills due within a week, each as often as in the
   * full list, in ascending order of the days left.
   */
  lemma UpcomingRule(bills: seq<Bill>, now: int, b: Bill)
    ensures b in UpcomingBills(bills, now) <==> b in bills && IsUpcoming(b, now)
    ensures multiset(UpcomingBills(bills, now)) == multiset(Seqs.Filter(bills, UpcomingAt(now)))
    ensures forall i, j :: 0 <= i < j < |UpcomingBills(bills, now)| ==>
      DaysUntilDue(UpcomingBills(bills, now)[i], now) <= DaysUntilDue(UpcomingBills(bills, now)[j], now)
  {
    var f := Seqs.Filter(bills, UpcomingAt(now));
    Seqs.FilterMember(bills, UpcomingAt(now), b);
    assert b in UpcomingBills(bills, now) <==> b in multiset(f);
  }

  /** A bill is upcoming exactly when it falls due after one day ago and within seven days from now. */
  lemma UpcomingByTime(b: Bill, now: int)
    ensures IsUpcoming(b, now) <==> now - Numbers.DayMs < b.nextDueDate <= now + 7 * Numbers.DayMs
  {
    var n := DaysUntilDue(b, now);
    assert (n - 1) * Numbers.DayMs < b.nextDueDate - now <= n * Numbers.DayMs;
  }

  /** The status line of a bill's card: "Overdue by n days", "Due today" or "Due in n days". */
  datatype Status = OverdueBy(days: int) | DueToday | DueIn(days: int)

  function StatusOf(b: Bill, now: int): (r: Status)
    ensures r.OverdueBy? <==> DaysUntilDue(b, now) < 0
    ensures r == DueToday <==> DaysUntilDue(b, now) == 0
    ensures r.OverdueBy? ==> r.days > 0 && r.days == -DaysUntilDue(b, now)
    ensures r.DueIn? ==> r.days > 0 && r.days == DaysUntilDue(b, now)
  {
    var n := DaysUntilDue(b, now);
    if n < 0 then OverdueBy(-n)  // `Math.abs(daysUntil)`
    else if n == 0 then DueToday
    else DueIn(n)
  }

  /**
   * In terms of time: a bill is overdue once its due time lies a full day or more in the
   * past, due today within the last day, and due in some days once its time is still ahead.
   */
  lemma StatusByTime(b: Bill, now: int)
    ensures StatusOf(b, now).OverdueBy? <==> b.nextDueDate <= now - Numbers.DayMs
    ensures StatusOf(b, now) == DueToday <==> now - Numbers.DayMs < b.nextDueDate <= now
    ensures StatusOf(b, now).DueIn? <==> now < b.nextDueDate
  {
    var n := DaysUntilDue(b, now);
    assert (n - 1) * Numbers.DayMs < b.nextDueDate - now <= n * Numbers.DayMs;
  }
}
