/**
 * The rules of the habits page: the `habitData` record built from the dialog and the submit
 * handler, the current streak, the completion rate against a target, the row of the last
 * seven days and the two counters at the top. Completed dates are day numbers and "today" is
 * the parameter `today`; a creation date is a time in milliseconds and "now" is `now`.
 */
module HabitsPage {
  import opened Wrappers
  import opened Types
  import Seqs
  import Ids
  import Storage
  import Numbers

  /**
   * The dialog's fields: the target as typed together with its `parseInt` value (None when
   * that is NaN), the description as typed.
   */
  datatype HabitForm = HabitForm(
    name: string,
    description: string,
    category: HabitCategory,
    frequency: HabitFrequency,
    targetText: string,
    targetValue: Option<int>,
    color: string)

  /**
   * `habitData`: an empty description and an empty target become `undefined`; the completed
   * days and the creation time come from the habit being edited, or start empty and at `now`
   * (the milliseconds of `new Date()`).
   */
  function HabitData(form: HabitForm, editing: Option<Habit>, now: int): (h: Habit)
    ensures h.description.None? <==> form.description == ""
    ensures h.description.Some? ==> h.description.value == form.description
    ensures form.targetText == "" ==> h.targetDays.None?
    ensures form.targetText != "" ==> h.targetDays == form.targetValue
    ensures editing.Some? ==> h.completedDates == editing.value.completedDates
    ensures editing.Some? ==> h.createdDate == editing.value.createdDate
    ensures editing.None? ==> h.completedDates == [] && h.createdDate == now
    ensures h.name == form.name && h.category == form.category && h.frequency == form.frequency
    ensures h.color == Some(form.color)
  {
    Habit("", form.name,
          if form.description != "" then Some(form.description) else None,
          form.category, form.frequency,
          if form.targetText != "" then form.targetValue else None,
          if editing.Some? then editing.value.completedDates else [],
          if editing.Some? then editing.value.createdDate else now,
          Some(form.color))
  }

  /** `habitData` as the updates object of an edit: every field but the id is present. */
  function EditPatch(form: HabitForm, editing: Option<Habit>, now: int): Storage.HabitPatch {
    var h := HabitData(form, editing, now);
    Storage.HabitPatch(None, Some(h.name), Some(h.description), Some(h.category), Some(h.frequency),
                       Some(h.targetDays), Some(h.completedDates), Some(h.createdDate), Some(h.color))
  }

  /** An edit replaces every field of the habit but its id. */
  lemma EditReplacesAll(form: HabitForm, editing: Option<Habit>, now: int, h: Habit)
    ensures EditPatch(form, editing, now).ApplyTo(h) == HabitData(form, editing, now).(id := h.id)
  {
  }

  /** The document a submit saves, or None when the edited habit is no longer stored. */
  function Submitted(d: FinancialData, form: HabitForm, editing: Option<Habit>, newId: string, now: int): Option<FinancialData> {
    match editing
    case Some(h) =>
      var i := Ids.IndexOfId(d.habits, Storage.HabitId, h.id);
      if i < 0 then None else Some(d.(habits := d.habits[i := EditPatch(form, editing, now).ApplyTo(d.habits[i])]))
    case None =>
      Some(d.(habits := d.habits + [HabitData(form, editing, now).(id := newId)]))
  }

  /**
   * A new habit is appended with no completed days, created at `now`. An edit rewrites the
   * first habit carrying the edited id with the dialog's record, so its completed days and
   * creation time become those of the dialog's copy, and keeps its id; the other habits and
   * arrays stay as they were; an id no longer stored saves nothing.
   */
  lemma SubmitEffect(d: FinancialData, form: HabitForm, editing: Option<Habit>, newId: string, now: int)
    ensures editing.None? ==>
      var r := Submitted(d, form, editing, newId, now);
      && r.Some? && r.value.(habits := d.habits) == d
      && r.value.habits == d.habits + [HabitData(form, editing, now).(id := newId)]
      && r.value.habits[|d.habits|].completedDates == []
      && r.value.habits[|d.habits|].createdDate == now
    ensures editing.Some? ==>
      (Submitted(d, form, editing, newId, now).None? <==> editing.value.id !in Ids.Keys(d.habits, Storage.HabitId))
    ensures editing.Some? && editing.value.id in Ids.Keys(d.habits, Storage.HabitId) ==>
      var r := Submitted(d, form, editing, newId, now);
      var i := Ids.IndexOfId(d.habits, Storage.HabitId, editing.value.id);
      && r.Some? && 0 <= i < |d.habits|
      && r.value.(habits := d.habits) == d
      && |r.value.habits| == |d.habits|
      && r.value.habits[i] == HabitData(form, editing, now).(id := editing.value.id)
      && (forall k | 0 <= k < |d.habits| && k != i :: r.value.habits[k] == d.habits[k])
  {
    if editing.Some? {
      Ids.FindById(d.habits, Storage.HabitId, editing.value.id);
      var i := Ids.IndexOfId(d.habits, Storage.HabitId, editing.value.id);
      if 0 <= i {
        EditReplacesAll(form, editing, now, d.habits[i]);
      }
    }
  }

  /** `handleSubmit`: there is no validation; the habit is updated or added through the store. */
  method HandleSubmit(store: Storage.Store, form: HabitForm, editing: Option<Habit>, newId: string, now: int)
    modifies store
    ensures store.storage == old(
      match Submitted(store.Loaded(now), form, editing, newId, now)
      case None => store.Seeded(now)
      case Some(d) => store.Saved(d))
  {
    if editing.Some? {
      store.UpdateHabit(editing.value.id, EditPatch(form, editing, now), now);
    } else {
      store.AddHabit(HabitData(form, editing, now), newId, now);
    }
  }

  /* ---------- one habit's card ---------- */

  /** `isCompletedToday`. */
  predicate IsCompletedToday(h: Habit, today: int) {
    today in h.completedDates
  }

  /** The sort key of `.sort().reverse()`: the latest day first. */
  function Latest(day: int): real {
    -(day as real)
  }

  /** The day `k` days before `today`, the `checkDate` of the streak loop. */
  function DaysBack(today: int, k: int): int {
    today - k
  }

  /**
   * `getCurrentStreak`: walking back from today, count the consecutive days that are
   * completed, checking at most as many days as there are completed dates. The result is the
   * length of the run ending today: every one of its days is completed, and the day before it
   * is not, unless the run used up every completed date.
   */
  method CurrentStreak(h: Habit, today: int) returns (streak: nat)
    ensures streak <= |h.completedDates|
    ensures forall k :: 0 <= k < streak ==> DaysBack(today, k) in h.completedDates
    ensures streak < |h.completedDates| ==> DaysBack(today, streak) !in h.completedDates
    ensures !IsCompletedToday(h, today) ==> streak == 0
  {
    var sortedDates := Seqs.SortBy(h.completedDates, Latest);
    SameDays(sortedDates, h.completedDates);
    streak := 0;
    var i := 0;
    while i < |sortedDates|
      invariant 0 <= i <= |sortedDates| == |h.completedDates| && streak == i
      invariant forall k :: 0 <= k < i ==> DaysBack(today, k) in h.completedDates
    {
      var checkDate := DaysBack(today, i);
      if checkDate in sortedDates {
        streak := streak + 1;
      } else {
        break;
      }
      i := i + 1;
    }
    assert DaysBack(today, 0) == today;
  }

  /** Reordering the days keeps the same days. */
  lemma SameDays(a: seq<int>, b: seq<int>)
    requires multiset(a) == multiset(b)
    ensures forall day :: day in a <==> day in b
  {
    forall day ensures day in a <==> day in b {
      assert day in a <==> day in multiset(a);
      assert day in b <==> day in multiset(b);
    }
  }

  /**
   * `getCompletionRate`: no rate without a target (none set, or zero); otherwise the
   * completed days as a percentage of the target, rounded half up.
   */
  function CompletionRate(h: Habit): (r: Option<int>)
    ensures r.None? <==> h.targetDays.None? || h.targetDays.value == 0
    ensures r.Some? ==>
      var rate := |h.completedDates| as real / h.targetDays.value as real * 100.0;
      r.value as real - 0.5 <= rate < r.value as real + 0.5
  {
    match h.targetDays
    case None => None
    case Some(target) =>
      if target == 0 then None
      else Some(Numbers.Round(|h.completedDates| as real / target as real * 100.0))
  }

  /** A target met exactly shows 100%, and a positive target never shows a negative rate. */
  lemma CompletionRateRule(h: Habit)
    ensures h.targetDays.Some? && h.targetDays.value == |h.completedDates| > 0 ==> CompletionRate(h) == Some(100)
    ensures h.targetDays.Some? && h.targetDays.value > 0 ==> CompletionRate(h).value >= 0
  {
    if h.targetDays.Some? && h.targetDays.value != 0 {
      var n := |h.completedDates| as real;
      var t := h.targetDays.value as real;
      var r := CompletionRate(h).value;
      if t > 0.0 {
        assert n / t >= 0.0;
      }
      if h.targetDays.value == |h.completedDates| {
        assert n / t == 1.0;
        assert r as real - 0.5 <= 100.0 < r as real + 0.5;
      }
    }
  }

  /**
   * `getLast7Days`: the seven days ending today, oldest first (the weekday labels are left
   * to the locale).
   */
  method Last7Days(today: int) returns (days: seq<int>)
    ensures |days| == 7
    ensures forall k :: 0 <= k < 7 ==> days[k] == today - 6 + k
  {
    days := [];
    var i := 6;
    while i >= 0
      invariant -1 <= i <= 6
      invariant |days| == 6 - i
      invariant forall k :: 0 <= k < |days| ==> days[k] == today - 6 + k
    {
      days := days + [today - i];
      i := i - 1;
    }
  }

  /* ---------- the counters ---------- */

  function DoneOn(today: int): Habit -> bool {
    (h: Habit) => IsCompletedToday(h, today)
  }

  /** `completedToday`: how many habits have today among their completed days. */
  function CompletedToday(habits: seq<Habit>, today: int): nat {
    |Seqs.Filter(habits, DoneOn(today))|
  }

  function CompletionCount(h: Habit): real {
    |h.completedDates| as real
  }

  /** `totalCompletions`: the completed days of all habits together. */
  function TotalCompletions(habits: seq<Habit>): real {
    Seqs.Sum(habits, CompletionCount)
  }

  /**
   * The "Today" counter never exceeds the number of habits, and reaches it exactly when
   * every habit is done today.
   */
  lemma CompletedTodayRule(habits: seq<Habit>, today: int)
    ensures CompletedToday(habits, today) <= |habits|
    ensures CompletedToday(habits, today) == |habits| <==>
      forall i :: 0 <= i < |habits| ==> IsCompletedToday(habits[i], today)
  {
    Seqs.FilterCount(habits, DoneOn(today));
  }

  /** Every habit done today contributes at least one completion to the total. */
  lemma {:induction false} CompletedTodayWithinTotal(habits: seq<Habit>, today: int)
    ensures CompletedToday(habits, today) as real <= TotalCompletions(habits)
  {
    if habits != [] {
      var rest := habits[..|habits| - 1];
      var last := habits[|habits| - 1];
      CompletedTodayWithinTotal(rest, today);
      if DoneOn(today)(last) {
        assert |last.completedDates| >= 1;
      }
    }
  }
}
