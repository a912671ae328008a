/**
 * The rules of the budgets page: the submit handler (validation, then an add with nothing
 * spent or an edit of category, limit and period only), the three totals, and the
 * per-budget progress, over-budget flag and remaining amount.
 */
module BudgetsPage {
  import opened Wrappers
  import opened Types
  import Seqs
  import Ids
  import Storage
  import Numbers

  /** The dialog's fields once parsed: `limit` is None when `parseFloat` gives NaN. */
  datatype BudgetForm = BudgetForm(category: string, limit: Option<real>, period: BudgetPeriod)

  /** The guard of `handleSubmit`: a category, and a limit that is a positive number. */
  predicate Accepts(form: BudgetForm) {
    form.category != "" && form.limit.Some? && form.limit.value > 0.0
  }

  /** The updates object of an edit: category, limit and period, nothing else. */
  function EditPatch(form: BudgetForm): Storage.BudgetPatch
    requires Accepts(form)
  {
    Storage.BudgetPatch(None, Some(form.category), Some(form.limit.value), None, Some(form.period))
  }

  /** The record handed to `addBudget` (its id is assigned there). */
  function NewBudget(form: BudgetForm): Budget
    requires Accepts(form)
  {
    Budget("", form.category, form.limit.value, 0.0, form.period)
  }

  /**
   * The document an accepted submit saves, or None when the edited budget is no longer
   * stored (the update then saves nothing). `editing` is the budget whose dialog is open.
   */
  function Submitted(d: FinancialData, form: BudgetForm, editing: Option<Budget>, newId: string): Option<FinancialData>
    requires Accepts(form)
  {
    match editing
    case Some(b) =>
      var i := Ids.IndexOfId(d.budgets, Storage.BudgetId, b.id);
      if i < 0 then None else Some(d.(budgets := d.budgets[i := EditPatch(form).ApplyTo(d.budgets[i])]))
    case None =>
      Some(d.(budgets := d.budgets + [NewBudget(form).(id := newId)]))
  }

  /**
   * A new budget is appended with the form's category, limit and period and nothing spent.
   * An edit finds the budget by id; it replaces category, limit and period of the first budget
   * with that id and keeps its id and `spent`; every other budget and every other array is
   * unchanged; an id no longer stored saves nothing.
   */
  lemma SubmitEffect(d: FinancialData, form: BudgetForm, editing: Option<Budget>, newId: string)
    requires Accepts(form)
    ensures editing.None? ==>
      Submitted(d, form, editing, newId) ==
        Some(d.(budgets := d.budgets + [Budget(newId, form.category, form.limit.value, 0.0, form.period)]))
    ensures editing.Some? ==>
      (Submitted(d, form, editing, newId).None? <==> editing.value.id !in Ids.Keys(d.budgets, Storage.BudgetId))
    ensures editing.Some? && Submitted(d, form, editing, newId).Some? ==>
      var r := Submitted(d, form, editing, newId).value;
      var i := Ids.IndexOfId(d.budgets, Storage.BudgetId, editing.value.id);
      && 0 <= i < |d.budgets| && d.budgets[i].id == editing.value.id
      && r.(budgets := d.budgets) == d
      && |r.budgets| == |d.budgets|
      && r.budgets[i] == d.budgets[i].(category := form.category, limit := form.limit.value, period := form.period)
      && (forall k | 0 <= k < |d.budgets| && k != i :: r.budgets[k] == d.budgets[k])
  {
    if editing.Some? {
      Ids.FindById(d.budgets, Storage.BudgetId, editing.value.id);
    }
  }

  /**
   * `handleSubmit`: a rejected form touches nothing; an accepted one adds the budget or
   * updates the edited one through the store.
   */
  method HandleSubmit(store: Storage.Store, form: BudgetForm, editing: Option<Budget>, newId: string, now: int)
    modifies store
    ensures store.storage == old(
      if !Accepts(form) then store.storage
      else match Submitted(store.Loaded(now), form, editing, newId)
        case None => store.Seeded(now)
        case Some(d) => store.Saved(d))
  {
    if !Accepts(form) {
      return;
    }
    if editing.Some? {
      store.UpdateBudget(editing.value.id, EditPatch(form), now);
    } else {
      store.AddBudget(NewBudget(form), newId, now);
    }
  }

  /* ---------- the totals ---------- */

  function Limit(b: Budget): real { b.limit }
  function Spent(b: Budget): real { b.spent }
  function LeftOver(b: Budget): real { b.limit - b.spent }

  /** The "Total Budget", "Total Spent" and "Remaining" cards. */
  function TotalBudget(budgets: seq<Budget>): real { Seqs.Sum(budgets, Limit) }
  function TotalSpent(budgets: seq<Budget>): real { Seqs.Sum(budgets, Spent) }
  function Remaining(budgets: seq<Budget>): real { TotalBudget(budgets) - TotalSpent(budgets) }

  /** The remaining total is what is left of each budget, added up (negative where overspent). */
  lemma RemainingTotal(budgets: seq<Budget>)
    ensures Remaining(budgets) == Seqs.Sum(budgets, LeftOver)
    ensures (forall i :: 0 <= i < |budgets| ==> budgets[i].spent <= budgets[i].limit) ==> Remaining(budgets) >= 0.0
  {
    Seqs.SumDifference(budgets, Limit, Spent, LeftOver);
    if forall i :: 0 <= i < |budgets| ==> budgets[i].spent <= budgets[i].limit {
      Seqs.SumNonNegative(budgets, LeftOver);
    }
  }

  /* ---------- one budget's card ---------- */

  /** `(budget.spent / budget.limit) * 100`. */
  function Progress(b: Budget): Numbers.Num {
    Numbers.Percent(b.spent, b.limit)
  }

  /** `progress > 100`. */
  predicate IsOverBudget(b: Budget) {
    Numbers.Greater(Progress(b), 100.0)
  }

  /** The value of the progress bar, `Math.min(progress, 100)`. */
  function ShownProgress(b: Budget): Numbers.Num {
    Numbers.Min(Progress(b), 100.0)
  }

  /** The text under the bar: "Over budget!" or the amount left. */
  datatype Status = OverBudget | Left(amount: real)

  function StatusOf(b: Budget): Status {
    if IsOverBudget(b) then OverBudget else Left(b.limit - b.spent)
  }

  /**
   * With a positive limit a budget is over exactly when more than the limit was spent; with a
   * negative limit exactly when less than the limit was spent; with a zero limit (the
   * division gives Infinity or NaN) exactly when anything was spent.
   */
  lemma OverBudgetRule(b: Budget)
    ensures b.limit > 0.0 ==> (IsOverBudget(b) <==> b.spent > b.limit)
    ensures b.limit < 0.0 ==> (IsOverBudget(b) <==> b.spent < b.limit)
    ensures b.limit == 0.0 ==> (IsOverBudget(b) <==> b.spent > 0.0)
  {
    if b.limit != 0.0 {
      var q := b.spent / b.limit;
      assert Progress(b) == Numbers.Finite(q * 100.0);
      assert q * b.limit == b.spent;
      if b.limit > 0.0 {
        assert q > 1.0 <==> q * b.limit > b.limit;
      } else {
        assert q > 1.0 <==> q * b.limit < b.limit;
      }
    }
  }

  /**
   * With a non-zero limit the bar is a number no greater than 100. An over-budget bar is
   * full; any other bar shows the progress itself. A budget that is not over shows a
   * non-negative amount left when its limit is positive.
   */
  lemma ShownProgressRule(b: Budget)
    ensures b.limit != 0.0 ==> ShownProgress(b).Finite? && ShownProgress(b).value <= 100.0
    ensures IsOverBudget(b) ==> ShownProgress(b) == Numbers.Finite(100.0)
    ensures !IsOverBudget(b) && Progress(b).Finite? ==> ShownProgress(b) == Progress(b)
    ensures b.limit > 0.0 && StatusOf(b).Left? ==> StatusOf(b).amount >= 0.0
  {
    OverBudgetRule(b);
  }
}
