/**
 * The rules of the transactions page: the submit handler (validation, the sign of the stored
 * amount, and the bump of the matching budget's `spent`), the delete handler, the list filter
 * and the three totals.
 */
module TransactionsPage {
  import opened Wrappers
  import opened Types
  import Seqs
  import Ids
  import Storage
  import Calculations

  /**
   * The dialog's fields once parsed: `amount` is None when `parseFloat` gives NaN, `date` is
   * None for an empty date input and otherwise the time value of that day.
   */
  datatype TransactionForm = TransactionForm(
    description: string,
    amount: Option<real>,
    category: string,
    kind: TxType,
    date: Option<int>)

  /** The guard of `handleSubmit`: every field present and the amount a number. */
  predicate Accepts(form: TransactionForm) {
    form.description != "" && form.amount.Some? && form.category != "" && form.date.Some?
  }

  /** `type === "expense" ? -Math.abs(amount) : Math.abs(amount)`. */
  function StoredAmount(kind: TxType, amount: real): (r: real)
    ensures Calculations.Abs(r) == Calculations.Abs(amount)
    ensures kind == Expense ==> r <= 0.0
    ensures kind == Income ==> r >= 0.0
  {
    if kind == Expense then -Calculations.Abs(amount) else Calculations.Abs(amount)
  }

  /** The record handed to `addTransaction` (its id is assigned there). */
  function NewTransaction(form: TransactionForm): Transaction
    requires Accepts(form)
  {
    Transaction("", form.date.value, form.description, StoredAmount(form.kind, form.amount.value), form.category, form.kind)
  }

  /** `(b) => b.category === category`. */
  function CategoryIs(category: string): Budget -> bool {
    (b: Budget) => b.category == category
  }

  /**
   * `data.budgets.find((b) => b.category === category)` followed by
   * `updateBudget(budget.id, { spent: budget.spent + amount })`: the update lands on the first
   * budget carrying the found budget's id, with the found budget's `spent` plus `amount`.
   */
  function BumpBudget(d: FinancialData, category: string, amount: real): (r: FinancialData)
    ensures r.(budgets := d.budgets) == d
    ensures |r.budgets| == |d.budgets|
  {
    var j := Seqs.FindIndex(d.budgets, CategoryIs(category));
    if j < 0 then d
    else
      var b := d.budgets[j];
      var i := Ids.IndexOfId(d.budgets, Storage.BudgetId, b.id);
      assert Ids.IdIs(Storage.BudgetId, b.id)(d.budgets[j]);
      d.(budgets := d.budgets[i := Storage.BudgetPatch(None, None, None, Some(b.spent + amount), None).ApplyTo(d.budgets[i])])
  }

  /** The document after an accepted submit: the transaction prepended, then an expense's budget bumped. */
  function Submitted(d: FinancialData, form: TransactionForm, newId: string): FinancialData
    requires Accepts(form)
  {
    var d1 := d.(transactions := [NewTransaction(form).(id := newId)] + d.transactions);
    if form.kind == Expense then BumpBudget(d1, form.category, Calculations.Abs(form.amount.value)) else d1
  }

  /**
   * When budget ids are unique, an expense raises the `spent` of the first budget of its
   * category by the absolute amount and changes nothing else; an expense in a category
   * without a budget, and any income, leave every budget as it was. The new transaction
   * is first, stamped with the new id, and carries the signed amount.
   */
  lemma SubmitEffect(d: FinancialData, form: TransactionForm, newId: string)
    requires Accepts(form)
    requires Ids.UniqueKeys(d.budgets, Storage.BudgetId)
    ensures var r := Submitted(d, form, newId);
      && r.transactions == [Transaction(newId, form.date.value, form.description,
                                        StoredAmount(form.kind, form.amount.value), form.category, form.kind)] + d.transactions
      && r.(transactions := d.transactions, budgets := d.budgets) == d
      && |r.budgets| == |d.budgets|
      && var j := Seqs.FindIndex(d.budgets, CategoryIs(form.category));
         (form.kind == Income || j < 0 ==> r.budgets == d.budgets) &&
         (form.kind == Expense && 0 <= j ==>
            && r.budgets[j] == d.budgets[j].(spent := d.budgets[j].spent + Calculations.Abs(form.amount.value))
            && forall k | 0 <= k < |d.budgets| && k != j :: r.budgets[k] == d.budgets[k])
  {
    var j := Seqs.FindIndex(d.budgets, CategoryIs(form.category));
    if form.kind == Expense && 0 <= j {
      var i := Ids.IndexOfId(d.budgets, Storage.BudgetId, d.budgets[j].id);
      assert i == j by {
        Ids.FindById(d.budgets, Storage.BudgetId, d.budgets[j].id);
        assert Ids.IdIs(Storage.BudgetId, d.budgets[j].id)(d.budgets[j]);
      }
    }
  }

  /**
   * `handleSubmit`: a rejected form touches nothing; an accepted one adds the transaction
   * and, for an expense, re-reads the document and updates the matching budget.
   */
  method HandleSubmit(store: Storage.Store, form: TransactionForm, newId: string, now: int)
    modifies store
    ensures store.storage == old(if Accepts(form) then store.Saved(Submitted(store.Loaded(now), form, newId)) else store.storage)
  {
    if !Accepts(form) {
      return;
    }
    ghost var s0 := store.storage;
    ghost var d0 := store.Loaded(now);
    var t := NewTransaction(form);
    store.AddTransaction(t, newId, now);
    ghost var d1 := d0.(transactions := [t.(id := newId)] + d0.transactions);
    if form.kind == Expense {
      ghost var r := BumpBudget(d1, form.category, Calculations.Abs(form.amount.value));
      Storage.ReadBack(store.available, s0, d1, r, now, store.defaults);
      BumpExpenseBudget(store, form.category, Calculations.Abs(form.amount.value), now);
    }
  }

  /**
   * The expense branch of `handleSubmit`: read the document, find the first budget of the
   * category and, if there is one, update its `spent`.
   */
  method BumpExpenseBudget(store: Storage.Store, category: string, amount: real, now: int)
    modifies store
    ensures store.storage == old(
      if Seqs.FindIndex(store.Loaded(now).budgets, CategoryIs(category)) < 0 then store.Seeded(now)
      else store.Saved(BumpBudget(store.Loaded(now), category, amount)))
  {
    ghost var d0 := store.Loaded(now);
    Storage.SaveAfterSeed(store.available, store.storage, now, store.defaults, BumpBudget(d0, category, amount));
    Storage.LoadAfterSeed(store.available, store.storage, now, store.defaults);
    var data := store.GetFinancialData(now);
    var j := Seqs.FindIndex(data.budgets, CategoryIs(category));
    if j >= 0 {
      var budget := data.budgets[j];
      BumpFound(data, category, amount, j, Ids.IndexOfId(data.budgets, Storage.BudgetId, budget.id));
      store.UpdateBudget(budget.id, Storage.BudgetPatch(None, None, None, Some(budget.spent + amount), None), now);
    }
  }

  /** When a budget of the category exists, its id is found again and `BumpBudget` is that update. */
  lemma BumpFound(d: FinancialData, category: string, amount: real, j: int, i: int)
    requires j == Seqs.FindIndex(d.budgets, CategoryIs(category)) && 0 <= j
    requires i == Ids.IndexOfId(d.budgets, Storage.BudgetId, d.budgets[j].id)
    ensures 0 <= i < |d.budgets|
    ensures BumpBudget(d, category, amount) ==
      d.(budgets := d.budgets[i := Storage.BudgetPatch(None, None, None, Some(d.budgets[j].spent + amount), None).ApplyTo(d.budgets[i])])
  {
    assert Ids.IdIs(Storage.BudgetId, d.budgets[j].id)(d.budgets[j]);
  }

  /** `handleDelete` after the confirmation: deleting a transaction never changes a budget. */
  method HandleDelete(store: Storage.Store, id: string, now: int)
    modifies store
    ensures store.storage == old(store.Saved(store.Loaded(now).(transactions := Ids.WithoutId(store.Loaded(now).transactions, Storage.TransactionId, id))))
    ensures store.Loaded(now).budgets == old(store.Loaded(now).budgets)
  {
    ghost var s0 := store.storage;
    ghost var d0 := store.Loaded(now);
    ghost var d1 := d0.(transactions := Ids.WithoutId(d0.transactions, Storage.TransactionId, id));
    store.DeleteTransaction(id, now);
    Storage.ReadBack(store.available, s0, d1, d1, now, store.defaults);
  }

  /* ---------- the list filter and the totals ---------- */

  /** `(t) => t.type === kind`. */
  function IsKind(kind: TxType): Transaction -> bool {
    (t: Transaction) => t.kind == kind
  }

  /** `(t) => t.category === category`. */
  function InCategory(category: string): Transaction -> bool {
    (t: Transaction) => t.category == category
  }

  /** The type filter of the page: "all", "income" or "expense". */
  datatype TypeFilter = AllTypes | OnlyKind(kind: TxType)

  /** The filter effect; the category filter "all" lets everything through. */
  function Filtered(transactions: seq<Transaction>, typeFilter: TypeFilter, categoryFilter: string): seq<Transaction> {
    var byType := if typeFilter.OnlyKind? then Seqs.Filter(transactions, IsKind(typeFilter.kind)) else transactions;
    if categoryFilter != "all" then Seqs.Filter(byType, InCategory(categoryFilter)) else byType
  }

  /** A transaction passes the filters. */
  predicate Passes(t: Transaction, typeFilter: TypeFilter, categoryFilter: string) {
    (typeFilter.OnlyKind? ==> t.kind == typeFilter.kind) && (categoryFilter != "all" ==> t.category == categoryFilter)
  }

  /**
   * A transaction is listed exactly when it is stored and passes both filters, and the list
   * keeps the stored order (filtering distributes over concatenation).
   */
  lemma FilteredIsSelection(transactions: seq<Transaction>, typeFilter: TypeFilter, categoryFilter: string,
                            t: Transaction, a: seq<Transaction>, b: seq<Transaction>)
    ensures t in Filtered(transactions, typeFilter, categoryFilter) <==>
      t in transactions && Passes(t, typeFilter, categoryFilter)
    ensures Filtered(a + b, typeFilter, categoryFilter) ==
      Filtered(a, typeFilter, categoryFilter) + Filtered(b, typeFilter, categoryFilter)
    ensures typeFilter == AllTypes && categoryFilter == "all" ==> Filtered(transactions, typeFilter, categoryFilter) == transactions
  {
    if typeFilter.OnlyKind? {
      Seqs.FilterMember(transactions, IsKind(typeFilter.kind), t);
      Seqs.FilterAppend(a, b, IsKind(typeFilter.kind));
    }
    var byType := if typeFilter.OnlyKind? then Seqs.Filter(transactions, IsKind(typeFilter.kind)) else transactions;
    if categoryFilter != "all" {
      Seqs.FilterMember(byType, InCategory(categoryFilter), t);
      var fa := if typeFilter.OnlyKind? then Seqs.Filter(a, IsKind(typeFilter.kind)) else a;
      var fb := if typeFilter.OnlyKind? then Seqs.Filter(b, IsKind(typeFilter.kind)) else b;
      Seqs.FilterAppend(fa, fb, InCategory(categoryFilter));
    }
  }

  /** `totalIncome`: absolute amounts of the income transactions. */
  function TotalIncome(transactions: seq<Transaction>): (r: real)
    ensures r >= 0.0
  {
    var incomes := Seqs.Filter(transactions, IsKind(Income));
    Seqs.SumNonNegative(incomes, Calculations.AbsAmount);
    Seqs.Sum(incomes, Calculations.AbsAmount)
  }

  /** `totalExpenses`: absolute amounts of the expense transactions. */
  function TotalExpenses(transactions: seq<Transaction>): (r: real)
    ensures r >= 0.0
  {
    var expenses := Seqs.Filter(transactions, IsKind(Expense));
    Seqs.SumNonNegative(expenses, Calculations.AbsAmount);
    Seqs.Sum(expenses, Calculations.AbsAmount)
  }

  /** `netCashFlow`. */
  function NetCashFlow(transactions: seq<Transaction>): real {
    TotalIncome(transactions) - TotalExpenses(transactions)
  }

  /**
   * A submitted transaction raises its own type's total by the absolute amount and moves the
   * net cash flow by exactly the signed amount that was stored.
   */
  lemma TotalsAfterSubmit(form: TransactionForm, newId: string, transactions: seq<Transaction>)
    requires Accepts(form)
    ensures var t := NewTransaction(form).(id := newId);
      && TotalIncome([t] + transactions) == TotalIncome(transactions) + (if form.kind == Income then Calculations.Abs(form.amount.value) else 0.0)
      && TotalExpenses([t] + transactions) == TotalExpenses(transactions) + (if form.kind == Expense then Calculations.Abs(form.amount.value) else 0.0)
      && NetCashFlow([t] + transactions) == NetCashFlow(transactions) + t.amount
  {
    var t := NewTransaction(form).(id := newId);
    Seqs.FilterAppend([t], transactions, IsKind(Income));
    Seqs.FilterAppend([t], transactions, IsKind(Expense));
    Seqs.SumAppend(Seqs.Filter([t], IsKind(Income)), Seqs.Filter(transactions, IsKind(Income)), Calculations.AbsAmount);
    Seqs.SumAppend(Seqs.Filter([t], IsKind(Expense)), Seqs.Filter(transactions, IsKind(Expense)), Calculations.AbsAmount);
    assert [t][..0] == [];
  }
}
