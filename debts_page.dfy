/**
 * The rules of the debts page: the submit handler with its validation, the set of debts due
 * within a week, the three totals and the overall progress, the order of the cards by
 * interest rate, and each card's progress and payoff estimate. "Now" is the parameter `now`.
 */
module DebtsPage {
  import opened Wrappers
  import opened Types
  import Seqs
  import Ids
  import Storage
  import Numbers
  import Calculations

  /**
   * The dialog's fields once parsed: a number is None when `parseFloat` gives NaN, the due
   * date None when the date field is empty.
   */
  datatype DebtForm = DebtForm(
    name: string,
    totalAmount: Option<real>,
    remainingAmount: Option<real>,
    interestRate: Option<real>,
    minimumPayment: Option<real>,
    dueDate: Option<int>,
    kind: DebtKind)

  /** The guard of `handleSubmit`: a name, four numbers and a due date. */
  predicate Accepts(form: DebtForm) {
    && form.name != ""
    && form.totalAmount.Some? && form.remainingAmount.Some?
    && form.interestRate.Some? && form.minimumPayment.Some?
    && form.dueDate.Some?
  }

  /** The record handed to `addDebt` (its id is assigned there). */
  function NewDebt(form: DebtForm): Debt
    requires Accepts(form)
  {
    Debt("", form.name, form.totalAmount.value, form.remainingAmount.value, form.interestRate.value,
         form.minimumPayment.value, form.dueDate, form.kind)
  }

  /** The updates object of an edit: every field but the id. */
  function EditPatch(form: DebtForm): Storage.DebtPatch
    requires Accepts(form)
  {
    Storage.DebtPatch(None, Some(form.name), Some(form.totalAmount.value), Some(form.remainingAmount.value),
                      Some(form.interestRate.value), Some(form.minimumPayment.value), Some(form.dueDate),
                      Some(form.kind))
  }

  /** The document an accepted submit saves, or None when the edited debt is no longer stored. */
  function Submitted(d: FinancialData, form: DebtForm, editing: Option<Debt>, newId: string): Option<FinancialData>
    requires Accepts(form)
  {
    match editing
    case Some(e) =>
      var i := Ids.IndexOfId(d.debts, Storage.DebtId, e.id);
      if i < 0 then None else Some(d.(debts := d.debts[i := EditPatch(form).ApplyTo(d.debts[i])]))
    case None =>
      Some(d.(debts := d.debts + [NewDebt(form).(id := newId)]))
  }

  /**
   * A new debt is appended with the form's values and the new id; an edit replaces every
   * field of the first debt carrying the edited id except that id, and leaves the other debts
   * and arrays alone; an id no longer stored saves nothing.
   */
  lemma SubmitEffect(d: FinancialData, form: DebtForm, editing: Option<Debt>, newId: string)
    requires Accepts(form)
    ensures editing.None? ==>
      Submitted(d, form, editing, newId) ==
        Some(d.(debts := d.debts + [Debt(newId, form.name, form.totalAmount.value, form.remainingAmount.value,
          form.interestRate.value, form.minimumPayment.value, form.dueDate, form.kind)]))
    ensures editing.Some? ==>
      (Submitted(d, form, editing, newId).None? <==> editing.value.id !in Ids.Keys(d.debts, Storage.DebtId))
    ensures editing.Some? && Submitted(d, form, editing, newId).Some? ==>
      var r := Submitted(d, form, editing, newId).value;
      var i := Ids.IndexOfId(d.debts, Storage.DebtId, editing.value.id);
      && 0 <= i < |d.debts|
      && r.(debts := d.debts) == d
      && |r.debts| == |d.debts|
      && r.debts[i] == NewDebt(form).(id := editing.value.id)
      && (forall k | 0 <= k < |d.debts| && k != i :: r.debts[k] == d.debts[k])
  {
    if editing.Some? {
      Ids.FindById(d.debts, Storage.DebtId, editing.value.id);
    }
  }

  /**
   * `handleSubmit`: a rejected form touches nothing; an accepted one adds the debt or
   * updates the edited one through the store.
   */
  method HandleSubmit(store: Storage.Store, form: DebtForm, editing: Option<Debt>, newId: string, now: int)
    modifies store
    ensures store.storage == old(
      if !Accepts(form) then store.storage
      else match Submitted(store.Loaded(now), form, editing, newId)
        case None => store.Seeded(now)
        case Some(d) => store.Saved(d))
  {
    if !Accepts(form) {
      return;
    }
    if editing.Some? {
      store.UpdateDebt(editing.value.id, EditPatch(form), now);
    } else {
      store.AddDebt(NewDebt(form), newId, now);
    }
  }

  /* ---------- due soon ---------- */

  /**
   * Due within the coming week, today included. A debt without a due date makes an invalid
   * date, whose day count is NaN, and is never due soon.
   */
  predicate IsDueSoon(debt: Debt, now: int) {
    debt.dueDate.Some? && 0 <= Numbers.DaysUntil(debt.dueDate.value, now) <= 7
  }

  /** The ids of the debts among the first `n` that are due soon. */
  ghost function DueSoonAmong(debts: seq<Debt>, now: int, n: nat): set<string>
    requires n <= |debts|
  {
    set i | 0 <= i < n && IsDueSoon(debts[i], now) :: debts[i].id
  }

  /**
   * The effect that fills `dueSoonDebts`: the ids of the debts due within a week. The "Due
   * Soon" badge is looked up by id, so a debt is badged when any debt sharing its id is due.
   */
  method DueSoonIds(debts: seq<Debt>, now: int) returns (ids: set<string>)
    ensures ids == DueSoonAmong(debts, now, |debts|)
    ensures forall i :: 0 <= i < |debts| && IsDueSoon(debts[i], now) ==> debts[i].id in ids
    ensures forall id :: id in ids ==> exists i :: 0 <= i < |debts| && debts[i].id == id && IsDueSoon(debts[i], now)
  {
    ids := {};
    var k := 0;
    while k < |debts|
      invariant 0 <= k <= |debts|
      invariant ids == DueSoonAmong(debts, now, k)
    {
      var debt := debts[k];
      var daysUntilDue := if debt.dueDate.Some? then Some(Numbers.DaysUntil(debt.dueDate.value, now)) else None;
      if daysUntilDue.Some? && daysUntilDue.value <= 7 && daysUntilDue.value >= 0 {
        ids := ids + {debt.id};
      }
      assert DueSoonAmong(debts, now, k + 1) ==
        DueSoonAmong(debts, now, k) + (if IsDueSoon(debts[k], now) then {debts[k].id} else {});
      k := k + 1;
    }
  }

  /** With distinct ids the badge is exact: a debt is badged exactly when it is due soon. */
  lemma DueSoonExact(debts: seq<Debt>, now: int, k: int)
    requires Ids.UniqueKeys(debts, Storage.DebtId) && 0 <= k < |debts|
    ensures debts[k].id in DueSoonAmong(debts, now, |debts|) <==> IsDueSoon(debts[k], now)
  {
    if debts[k].id in DueSoonAmong(debts, now, |debts|) {
      var i :| 0 <= i < |debts| && IsDueSoon(debts[i], now) && debts[i].id == debts[k].id;
      if i != k {
        assert false;
      }
    }
  }

  /** A debt is due soon exactly when it has a due date after one day ago and within a week. */
  lemma DueSoonByTime(debt: Debt, now: int)
    ensures IsDueSoon(debt, now) <==>
      debt.dueDate.Some? && now - Numbers.DayMs < debt.dueDate.value <= now + 7 * Numbers.DayMs
  {
    if debt.dueDate.Some? {
      var n := Numbers.DaysUntil(debt.dueDate.value, now);
      assert (n - 1) * Numbers.DayMs < debt.dueDate.value - now <= n * Numbers.DayMs;
    }
  }

  /* ---------- the totals ---------- */

  function Original(d: Debt): real { d.totalAmount }
  function Owed(d: Debt): real { d.remainingAmount }
  function Paid(d: Debt): real { d.totalAmount - d.remainingAmount }

  /** The "Total Debt", "Total Paid" and original-amount figures. */
  function TotalDebt(debts: seq<Debt>): real { Seqs.Sum(debts, Owed) }
  function TotalPaid(debts: seq<Debt>): real { Seqs.Sum(debts, Paid) }
  function TotalOriginal(debts: seq<Debt>): real { Seqs.Sum(debts, Original) }

  /** What is still owed and what was paid add up to what was borrowed. */
  lemma TotalsRule(debts: seq<Debt>)
    ensures TotalDebt(debts) + TotalPaid(debts) == TotalOriginal(debts)
    ensures (forall i :: 0 <= i < |debts| ==> 0.0 <= debts[i].remainingAmount <= debts[i].totalAmount) ==>
      0.0 <= TotalPaid(debts) && 0.0 <= TotalDebt(debts)
  {
    Seqs.SumDifference(debts, Original, Owed, Paid);
    if forall i :: 0 <= i < |debts| ==> 0.0 <= debts[i].remainingAmount <= debts[i].totalAmount {
      Seqs.SumNonNegative(debts, Paid);
      Seqs.SumNonNegative(debts, Owed);
    }
  }

  /** The overall progress: the share paid, in percent, or 0 when nothing was borrowed. */
  function OverallProgress(debts: seq<Debt>): real {
    if TotalOriginal(debts) > 0.0 then TotalPaid(debts) / TotalOriginal(debts) * 100.0 else 0.0
  }

  /**
   * While every balance lies between zero and its original amount the overall progress is
   * a percentage, reaching 100 exactly when nothing is owed any more.
   */
  lemma OverallProgressRule(debts: seq<Debt>)
    requires forall i :: 0 <= i < |debts| ==> 0.0 <= debts[i].remainingAmount <= debts[i].totalAmount
    ensures 0.0 <= OverallProgress(debts) <= 100.0
    ensures TotalOriginal(debts) > 0.0 ==> (OverallProgress(debts) == 100.0 <==> TotalDebt(debts) == 0.0)
  {
    TotalsRule(debts);
    var o := TotalOriginal(debts);
    if o > 0.0 {
      var p := TotalPaid(debts);
      assert p <= o;
      assert p / o <= 1.0;
      assert p / o == 1.0 <==> p == o;
    }
  }

  /* ---------- the cards ---------- */

  /** The sort key of `b.interestRate - a.interestRate`: the highest rate first. */
  function HighestRateFirst(d: Debt): real {
    -d.interestRate
  }

  /** The order of the cards: by interest rate, highest first (the avalanche order). */
  function Ordered(debts: seq<Debt>): seq<Debt> {
    Seqs.SortBy(debts, HighestRateFirst)
  }

  /** The cards show every debt exactly once, in non-increasing order of interest rate. */
  lemma OrderedRule(debts: seq<Debt>)
    ensures multiset(Ordered(debts)) == multiset(debts)
    ensures forall i, j :: 0 <= i < j < |Ordered(debts)| ==>
      Ordered(debts)[i].interestRate >= Ordered(debts)[j].interestRate
  {
    var r := Ordered(debts);
    forall i, j | 0 <= i < j < |r| ensures r[i].interestRate >= r[j].interestRate {
      assert HighestRateFirst(r[i]) <= HighestRateFirst(r[j]);
    }
  }

  /** One card's bar, `((totalAmount - remainingAmount) / totalAmount) * 100`. */
  function Progress(d: Debt): Numbers.Num {
    Numbers.Percent(d.totalAmount - d.remainingAmount, d.totalAmount)
  }

  /** With a balance between zero and the original amount the bar shows a percentage. */
  lemma ProgressRule(d: Debt)
    requires 0.0 <= d.remainingAmount <= d.totalAmount && d.totalAmount > 0.0
    ensures Progress(d).Finite? && 0.0 <= Progress(d).value <= 100.0
    ensures Progress(d).value == 100.0 <==> d.remainingAmount == 0.0
  {
    var q := (d.totalAmount - d.remainingAmount) / d.totalAmount;
    assert Progress(d) == Numbers.Finite(q * 100.0);
    assert q * d.totalAmount == d.totalAmount - d.remainingAmount;
  }

  /** The payoff estimate shown on a card: "N/A" or a number of months. */
  datatype PayoffText = NotApplicable | InMonths(payoff: Calculations.Payoff)

  function PayoffShown(d: Debt): PayoffText {
    var p := Calculations.DebtPayoffMonths(d.remainingAmount, d.minimumPayment, d.interestRate);
    if p == Calculations.Never then NotApplicable else InMonths(p)
  }

  /**
   * "N/A" is shown exactly when there is no positive minimum payment or the payment only
   * covers the monthly interest; without interest the months shown are the fewest whose
   * payments cover the balance.
   */
  lemma PayoffShownRule(d: Debt)
    ensures PayoffShown(d) == NotApplicable <==>
      d.minimumPayment <= 0.0 ||
      (d.interestRate > 0.0 && d.minimumPayment == d.remainingAmount * (d.interestRate / 100.0 / 12.0))
    ensures d.minimumPayment > 0.0 && d.interestRate == 0.0 ==>
      PayoffShown(d).InMonths? && PayoffShown(d).payoff.Months? &&
      var n := PayoffShown(d).payoff.months;
      (n - 1) as real * d.minimumPayment < d.remainingAmount <= n as real * d.minimumPayment
  {
  }
}
