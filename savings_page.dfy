/**
 * The rules of the savings page: the submit handler with its validation, the contribute
 * handler, the three totals, the order of the cards by priority, and each card's progress,
 * completion, deadline and remaining amount. "Now" is the parameter `now`.
 */
module SavingsPage {
  import opened Wrappers
  import opened Types
  import Seqs
  import Ids
  import Storage
  import Numbers

  /**
   * The dialog's fields once parsed: an amount is None when `parseFloat` gives NaN, the
   * deadline None when the date field is empty.
   */
  datatype GoalForm = GoalForm(
    name: string,
    targetAmount: Option<real>,
    currentAmount: Option<real>,
    deadline: Option<int>,
    priority: Priority)

  /** The guard of `handleSubmit`: a name, two numbers and a deadline. */
  predicate Accepts(form: GoalForm) {
    form.name != "" && form.targetAmount.Some? && form.currentAmount.Some? && form.deadline.Some?
  }

  /** The record handed to `addSavingsGoal` (its id is assigned there). */
  function NewGoal(form: GoalForm): SavingsGoal
    requires Accepts(form)
  {
    SavingsGoal("", form.name, form.targetAmount.value, form.currentAmount.value,
                form.deadline.value, form.priority)
  }

  /** The updates object of an edit: every field but the id. */
  function EditPatch(form: GoalForm): Storage.SavingsGoalPatch
    requires Accepts(form)
  {
    Storage.SavingsGoalPatch(None, Some(form.name), Some(form.targetAmount.value),
                             Some(form.currentAmount.value), Some(form.deadline.value), Some(form.priority))
  }

  /** The document an accepted submit saves, or None when the edited goal is no longer stored. */
  function Submitted(d: FinancialData, form: GoalForm, editing: Option<SavingsGoal>, newId: string): Option<FinancialData>
    requires Accepts(form)
  {
    match editing
    case Some(g) =>
      var i := Ids.IndexOfId(d.savingsGoals, Storage.SavingsGoalId, g.id);
      if i < 0 then None
      else Some(d.(savingsGoals := d.savingsGoals[i := EditPatch(form).ApplyTo(d.savingsGoals[i])]))
    case None =>
      Some(d.(savingsGoals := d.savingsGoals + [NewGoal(form).(id := newId)]))
  }

  /**
   * A new goal is appended with the form's values and the new id; an edit replaces every
   * field of the first goal carrying the edited id except that id, and leaves the other goals
   * and arrays alone; an id no longer stored saves nothing.
   */
  lemma SubmitEffect(d: FinancialData, form: GoalForm, editing: Option<SavingsGoal>, newId: string)
    requires Accepts(form)
    ensures editing.None? ==>
      Submitted(d, form, editing, newId) ==
        Some(d.(savingsGoals := d.savingsGoals + [SavingsGoal(newId, form.name, form.targetAmount.value,
          form.currentAmount.value, form.deadline.value, form.priority)]))
    ensures editing.Some? ==>
      (Submitted(d, form, editing, newId).None? <==>
        editing.value.id !in Ids.Keys(d.savingsGoals, Storage.SavingsGoalId))
    ensures editing.Some? && Submitted(d, form, editing, newId).Some? ==>
      var r := Submitted(d, form, editing, newId).value;
      var i := Ids.IndexOfId(d.savingsGoals, Storage.SavingsGoalId, editing.value.id);
      && 0 <= i < |d.savingsGoals|
      && r.(savingsGoals := d.savingsGoals) == d
      && |r.savingsGoals| == |d.savingsGoals|
      && r.savingsGoals[i] == NewGoal(form).(id := editing.value.id)
      && (forall k | 0 <= k < |d.savingsGoals| && k != i :: r.savingsGoals[k] == d.savingsGoals[k])
  {
    if editing.Some? {
      Ids.FindById(d.savingsGoals, Storage.SavingsGoalId, editing.value.id);
    }
  }

  /**
   * `handleSubmit`: a rejected form touches nothing; an accepted one adds the goal or
   * updates the edited one through the store.
   */
  method HandleSubmit(store: Storage.Store, form: GoalForm, editing: Option<SavingsGoal>, newId: string, now: int)
    modifies store
    ensures store.storage == old(
      if !Accepts(form) then store.storage
      else match Submitted(store.Loaded(now), form, editing, newId)
        case None => store.Seeded(now)
        case Some(d) => store.Saved(d))
  {
    if !Accepts(form) {
      return;
    }
    if editing.Some? {
      store.UpdateSavingsGoal(editing.value.id, EditPatch(form), now);
    } else {
      store.AddSavingsGoal(NewGoal(form), newId, now);
    }
  }

  /* ---------- contributions ---------- */

  /** The guard of `handleContribute`: a goal is selected and the amount is a positive number. */
  predicate ContributionAccepted(goal: Option<SavingsGoal>, amount: Option<real>) {
    goal.Some? && amount.Some? && amount.value > 0.0
  }

  /**
   * The updates object of a contribution: the amount saved so far, as the dialog saw it,
   * plus the contribution.
   */
  function ContributionPatch(goal: SavingsGoal, amount: real): Storage.SavingsGoalPatch {
    Storage.SavingsGoalPatch(None, None, None, Some(goal.currentAmount + amount), None, None)
  }

  /** The document an accepted contribution saves, or None when the goal is no longer stored. */
  function Contributed(d: FinancialData, goal: SavingsGoal, amount: real): Option<FinancialData> {
    var i := Ids.IndexOfId(d.savingsGoals, Storage.SavingsGoalId, goal.id);
    if i < 0 then None
    else Some(d.(savingsGoals := d.savingsGoals[i := ContributionPatch(goal, amount).ApplyTo(d.savingsGoals[i])]))
  }

  /**
   * A contribution rewrites the saved amount of the first goal carrying the dialog's id to
   * the dialog's saved amount plus the contribution, and changes nothing else. When the
   * stored amount is still the one the dialog saw, the goal's remaining amount drops by
   * exactly the contribution; an id no longer stored saves nothing.
   */
  lemma ContributeEffect(d: FinancialData, goal: SavingsGoal, amount: real)
    ensures Contributed(d, goal, amount).None? <==> goal.id !in Ids.Keys(d.savingsGoals, Storage.SavingsGoalId)
    ensures Contributed(d, goal, amount).Some? ==>
      var r := Contributed(d, goal, amount).value;
      var i := Ids.IndexOfId(d.savingsGoals, Storage.SavingsGoalId, goal.id);
      && 0 <= i < |d.savingsGoals| && d.savingsGoals[i].id == goal.id
      && r.(savingsGoals := d.savingsGoals) == d
      && |r.savingsGoals| == |d.savingsGoals|
      && r.savingsGoals[i] == d.savingsGoals[i].(currentAmount := goal.currentAmount + amount)
      && (d.savingsGoals[i].currentAmount == goal.currentAmount ==>
            RemainingOf(r.savingsGoals[i]) == RemainingOf(d.savingsGoals[i]) - amount)
      && (forall k | 0 <= k < |d.savingsGoals| && k != i :: r.savingsGoals[k] == d.savingsGoals[k])
  {
    Ids.FindById(d.savingsGoals, Storage.SavingsGoalId, goal.id);
  }

  /**
   * `handleContribute`: without a selected goal or a positive amount nothing happens;
   * otherwise the goal's saved amount is updated through the store.
   */
  method HandleContribute(store: Storage.Store, goal: Option<SavingsGoal>, amount: Option<real>, now: int)
    modifies store
    ensures store.storage == old(
      if !ContributionAccepted(goal, amount) then store.storage
      else match Contributed(store.Loaded(now), goal.value, amount.value)
        case None => store.Seeded(now)
        case Some(d) => store.Saved(d))
  {
    if goal.None? {
      return;
    }
    if amount.None? || amount.value <= 0.0 {
      return;
    }
    store.UpdateSavingsGoal(goal.value.id, ContributionPatch(goal.value, amount.value), now);
  }

  /* ---------- the totals ---------- */

  function TargetOf(g: SavingsGoal): real { g.targetAmount }
  function SavedOf(g: SavingsGoal): real { g.currentAmount }
  function RemainingOf(g: SavingsGoal): real { g.targetAmount - g.currentAmount }

  /** The "Total Target", "Total Saved" and "Remaining" cards. */
  function TotalTarget(goals: seq<SavingsGoal>): real { Seqs.Sum(goals, TargetOf) }
  function TotalSaved(goals: seq<SavingsGoal>): real { Seqs.Sum(goals, SavedOf) }
  function TotalRemaining(goals: seq<SavingsGoal>): real { TotalTarget(goals) - TotalSaved(goals) }

  /**
   * The remaining total is what each goal still lacks, added up; it is not negative while no
   * goal has been overshot.
   */
  lemma TotalRemainingRule(goals: seq<SavingsGoal>)
    ensures TotalRemaining(goals) == Seqs.Sum(goals, RemainingOf)
    ensures (forall i :: 0 <= i < |goals| ==> goals[i].currentAmount <= goals[i].targetAmount) ==>
      TotalRemaining(goals) >= 0.0
  {
    Seqs.SumDifference(goals, TargetOf, SavedOf, RemainingOf);
    if forall i :: 0 <= i < |goals| ==> goals[i].currentAmount <= goals[i].targetAmount {
      Seqs.SumNonNegative(goals, RemainingOf);
    }
  }

  /* ---------- the cards ---------- */

  /** `priorityOrder`: high 0, medium 1, low 2. */
  function Rank(g: SavingsGoal): real {
    match g.priority
    case High => 0.0
    case Medium => 1.0
    case Low => 2.0
  }

  /** The order of the cards: sorted by priority, stable within a priority. */
  function Ordered(goals: seq<SavingsGoal>): seq<SavingsGoal> {
    Seqs.SortBy(goals, Rank)
  }

  /**
   * The cards show every goal exactly once, and no goal is shown after one of a lower
   * priority: the high-priority goals come first and the low-priority ones last.
   */
  lemma OrderedRule(goals: seq<SavingsGoal>)
    ensures multiset(Ordered(goals)) == multiset(goals)
    ensures forall i, j :: 0 <= i < j < |Ordered(goals)| ==>
      (Ordered(goals)[j].priority == High ==> Ordered(goals)[i].priority == High) &&
      (Ordered(goals)[i].priority == Low ==> Ordered(goals)[j].priority == Low)
  {
    var r := Ordered(goals);
    forall i, j | 0 <= i < j < |r|
      ensures (r[j].priority == High ==> r[i].priority == High) && (r[i].priority == Low ==> r[j].priority == Low)
    {
      assert Rank(r[i]) <= Rank(r[j]);
    }
  }

  /** `(goal.currentAmount / goal.targetAmount) * 100`. */
  function Progress(g: SavingsGoal): Numbers.Num {
    Numbers.Percent(g.currentAmount, g.targetAmount)
  }

  /** `progress >= 100`: the "Complete" badge, which also disables the contribute button. */
  predicate IsComplete(g: SavingsGoal) {
    Numbers.AtLeast(Progress(g), 100.0)
  }

  /** The value of the progress bar, `Math.min(progress, 100)`. */
  function ShownProgress(g: SavingsGoal): Numbers.Num {
    Numbers.Min(Progress(g), 100.0)
  }

  /** `daysRemaining`: whole days to the deadline, rounded up. */
  function DaysRemaining(g: SavingsGoal, now: int): int {
    Numbers.DaysUntil(g.deadline, now)
  }

  /** `daysRemaining < 0`: shown as "Overdue" instead of the days left. */
  predicate IsOverdue(g: SavingsGoal, now: int) {
    DaysRemaining(g, now) < 0
  }

  /**
   * With a positive target a goal is complete exactly when the saved amount reaches it;
   * with a zero target (the division gives Infinity or NaN) exactly when something is saved;
   * with a negative target exactly when the saved amount is at or below it.
   */
  lemma CompleteRule(g: SavingsGoal)
    ensures g.targetAmount > 0.0 ==> (IsComplete(g) <==> g.currentAmount >= g.targetAmount)
    ensures g.targetAmount == 0.0 ==> (IsComplete(g) <==> g.currentAmount > 0.0)
    ensures g.targetAmount < 0.0 ==> (IsComplete(g) <==> g.currentAmount <= g.targetAmount)
  {
    if g.targetAmount != 0.0 {
      var q := g.currentAmount / g.targetAmount;
      assert Progress(g) == Numbers.Finite(q * 100.0);
      assert q * g.targetAmount == g.currentAmount;
      if g.targetAmount > 0.0 {
        assert q >= 1.0 <==> q * g.targetAmount >= g.targetAmount;
      } else {
        assert q >= 1.0 <==> q * g.targetAmount <= g.targetAmount;
      }
    }
  }

  /**
   * A contribution to a goal with a positive target never takes away its completion, and
   * one that covers what remains completes it.
   */
  lemma ContributionCompletes(g: SavingsGoal, amount: real)
    requires g.targetAmount > 0.0 && amount > 0.0
    ensures IsComplete(g) ==> IsComplete(g.(currentAmount := g.currentAmount + amount))
    ensures amount >= RemainingOf(g) ==> IsComplete(g.(currentAmount := g.currentAmount + amount))
  {
    CompleteRule(g);
    CompleteRule(g.(currentAmount := g.currentAmount + amount));
  }

  /**
   * A goal is overdue exactly when its deadline lies a full day or more in the past; the
   * bar of a goal with a non-zero target shows a number no greater than 100.
   */
  lemma CardRule(g: SavingsGoal, now: int)
    ensures IsOverdue(g, now) <==> g.deadline <= now - Numbers.DayMs
    ensures g.targetAmount != 0.0 ==> ShownProgress(g).Finite? && ShownProgress(g).value <= 100.0
    ensures IsComplete(g) ==> ShownProgress(g) == Numbers.Finite(100.0)
  {
    var n := DaysRemaining(g, now);
    assert (n - 1) * Numbers.DayMs < g.deadline - now <= n * Numbers.DayMs;
  }
}
