/**
 * The local store: the whole financial document persisted under one key of a key-value
 * storage, a currency preference under another, and the add / update / delete operations,
 * each of which loads the document, changes one array and saves it back.
 *
 * Storage values are modelled rather than serialised: a stored document is `Json(doc)`,
 * a string is `Text(s)`, and text that does not parse as a document is `Corrupt`.
 * `available` is false where there is no browser window (no storage at all).
 * The clock and the id generator (`Date.now()`) are parameters: `now` dates the seeded
 * default records, `newId` is the id an add assigns.
 */
module Storage {
  import opened Wrappers
  import opened Types
  import Seqs
  import Ids

  const StorageKey: string := "money-mastery-data"
  const CurrencyKey: string := "money-mastery-currency"
  const DefaultCurrency: string := "KES"

  datatype StoredValue = Text(text: string) | Json(doc: FinancialData) | Corrupt

  /* ---------- Partial<X>: `{ ...record, ...updates }` ---------- */

  // A `None` field is absent from the updates object. For an optional field of the record,
  // `Some(None)` is a field present with the value `undefined`, which the spread copies.

  datatype BudgetPatch = BudgetPatch(
    id: Option<string>, category: Option<string>, limit: Option<real>,
    spent: Option<real>, period: Option<BudgetPeriod>)
  {
    function ApplyTo(b: Budget): Budget {
      Budget(id.GetOr(b.id), category.GetOr(b.category), limit.GetOr(b.limit),
             spent.GetOr(b.spent), period.GetOr(b.period))
    }
  }

  datatype DebtPatch = DebtPatch(
    id: Option<string>, name: Option<string>, totalAmount: Option<real>,
    remainingAmount: Option<real>, interestRate: Option<real>, minimumPayment: Option<real>,
    dueDate: Option<Option<int>>, kind: Option<DebtKind>)
  {
    function ApplyTo(d: Debt): Debt {
      Debt(id.GetOr(d.id), name.GetOr(d.name), totalAmount.GetOr(d.totalAmount),
           remainingAmount.GetOr(d.remainingAmount), interestRate.GetOr(d.interestRate),
           minimumPayment.GetOr(d.minimumPayment), dueDate.GetOr(d.dueDate), kind.GetOr(d.kind))
    }
  }

  datatype SavingsGoalPatch = SavingsGoalPatch(
    id: Option<string>, name: Option<string>, targetAmount: Option<real>,
    currentAmount: Option<real>, deadline: Option<int>, priority: Option<Priority>)
  {
    function ApplyTo(g: SavingsGoal): SavingsGoal {
      SavingsGoal(id.GetOr(g.id), name.GetOr(g.name), targetAmount.GetOr(g.targetAmount),
                  currentAmount.GetOr(g.currentAmount), deadline.GetOr(g.deadline),
                  priority.GetOr(g.priority))
    }
  }

  datatype AccountPatch = AccountPatch(
    id: Option<string>, name: Option<string>, kind: Option<AccountKind>, balance: Option<real>,
    currency: Option<string>, institution: Option<Option<string>>,
    accountNumber: Option<Option<string>>)
  {
    function ApplyTo(a: Account): Account {
      Account(id.GetOr(a.id), name.GetOr(a.name), kind.GetOr(a.kind), balance.GetOr(a.balance),
              currency.GetOr(a.currency), institution.GetOr(a.institution),
              accountNumber.GetOr(a.accountNumber))
    }
  }

  datatype AssetPatch = AssetPatch(
    id: Option<string>, name: Option<string>, kind: Option<AssetKind>, value: Option<real>,
    purchaseDate: Option<Option<int>>, description: Option<Option<string>>)
  {
    function ApplyTo(a: Asset): Asset {
      Asset(id.GetOr(a.id), name.GetOr(a.name), kind.GetOr(a.kind), value.GetOr(a.value),
            purchaseDate.GetOr(a.purchaseDate), description.GetOr(a.description))
    }
  }

  datatype LiabilityPatch = LiabilityPatch(
    id: Option<string>, name: Option<string>, kind: Option<LiabilityKind>, amount: Option<real>,
    interestRate: Option<Option<real>>, monthlyPayment: Option<Option<real>>,
    dueDate: Option<Option<int>>)
  {
    function ApplyTo(l: Liability): Liability {
      Liability(id.GetOr(l.id), name.GetOr(l.name), kind.GetOr(l.kind), amount.GetOr(l.amount),
                interestRate.GetOr(l.interestRate), monthlyPayment.GetOr(l.monthlyPayment),
                dueDate.GetOr(l.dueDate))
    }
  }

  datatype LoanGivenPatch = LoanGivenPatch(
    id: Option<string>, borrowerName: Option<string>, amount: Option<real>,
    amountRepaid: Option<real>, interestRate: Option<Option<real>>, loanDate: Option<int>,
    dueDate: Option<Option<int>>, status: Option<LoanStatus>, notes: Option<Option<string>>)
  {
    function ApplyTo(l: LoanGiven): LoanGiven {
      LoanGiven(id.GetOr(l.id), borrowerName.GetOr(l.borrowerName), amount.GetOr(l.amount),
                amountRepaid.GetOr(l.amountRepaid), interestRate.GetOr(l.interestRate),
                loanDate.GetOr(l.loanDate), dueDate.GetOr(l.dueDate), status.GetOr(l.status),
                notes.GetOr(l.notes))
    }
  }

  datatype BillPatch = BillPatch(
    id: Option<string>, name: Option<string>, amount: Option<real>,
    category: Option<BillCategory>, frequency: Option<BillFrequency>, nextDueDate: Option<int>,
    autoPayEnabled: Option<bool>, reminderDays: Option<Option<int>>, notes: Option<Option<string>>)
  {
    function ApplyTo(b: Bill): Bill {
      Bill(id.GetOr(b.id), name.GetOr(b.name), amount.GetOr(b.amount), category.GetOr(b.category),
           frequency.GetOr(b.frequency), nextDueDate.GetOr(b.nextDueDate),
           autoPayEnabled.GetOr(b.autoPayEnabled), reminderDays.GetOr(b.reminderDays),
           notes.GetOr(b.notes))
    }
  }

  datatype HabitPatch = HabitPatch(
    id: Option<string>, name: Option<string>, description: Option<Option<string>>,
    category: Option<HabitCategory>, frequency: Option<HabitFrequency>,
    targetDays: Option<Option<int>>, completedDates: Option<seq<int>>, createdDate: Option<int>,
    color: Option<Option<string>>)
  {
    function ApplyTo(h: Habit): Habit {
      Habit(id.GetOr(h.id), name.GetOr(h.name), description.GetOr(h.description),
            category.GetOr(h.category), frequency.GetOr(h.frequency),
            targetDays.GetOr(h.targetDays), completedDates.GetOr(h.completedDates),
            createdDate.GetOr(h.createdDate), color.GetOr(h.color))
    }
  }

  datatype WishlistItemPatch = WishlistItemPatch(
    id: Option<string>, name: Option<string>, price: Option<real>, priority: Option<Priority>,
    category: Option<WishlistCategory>, url: Option<Option<string>>,
    notes: Option<Option<string>>, savedAmount: Option<real>, targetDate: Option<Option<int>>,
    isPurchased: Option<bool>, addedDate: Option<int>)
  {
    function ApplyTo(w: WishlistItem): WishlistItem {
      WishlistItem(id.GetOr(w.id), name.GetOr(w.name), price.GetOr(w.price),
                   priority.GetOr(w.priority), category.GetOr(w.category), url.GetOr(w.url),
                   notes.GetOr(w.notes), savedAmount.GetOr(w.savedAmount),
                   targetDate.GetOr(w.targetDate), isPurchased.GetOr(w.isPurchased),
                   addedDate.GetOr(w.addedDate))
    }
  }

  /* ---------- id accessors ---------- */

  function TransactionId(t: Transaction): string { t.id }
  function BudgetId(b: Budget): string { b.id }
  function DebtId(d: Debt): string { d.id }
  function SavingsGoalId(g: SavingsGoal): string { g.id }
  function AccountId(a: Account): string { a.id }
  function AssetId(a: Asset): string { a.id }
  function LiabilityId(l: Liability): string { l.id }
  function LoanGivenId(l: LoanGiven): string { l.id }
  function BillId(b: Bill): string { b.id }
  function HabitId(h: Habit): string { h.id }
  function WishlistItemId(w: WishlistItem): string { w.id }

  /* ---------- the seeded document ---------- */

  /** The sample document written on first use; `now` stands for `Date.now()`. */
  function DefaultData(now: int, currency: string): (d: FinancialData)
    ensures d.currency == currency
    ensures |d.transactions| == 3 && |d.budgets| == 3 && |d.debts| == 2 && |d.savingsGoals| == 2
    ensures |d.accounts| == 3 && |d.assets| == 2 && |d.liabilities| == 1 && |d.loansGiven| == 1
    ensures |d.bills| == 2 && |d.habits| == 2 && |d.wishlist| == 2
    ensures forall a | a in d.accounts :: a.currency == currency
  {
    FinancialData(
      transactions := [
        Transaction("1", now, "Monthly Salary", 5000.0, "Salary", Income),
        Transaction("2", now - 86400000, "Grocery Shopping", -150.0, "Food", Expense),
        Transaction("3", now - 172800000, "Electric Bill", -85.0, "Utilities", Expense)],
      budgets := [
        Budget("1", "Food", 500.0, 150.0, BudgetPeriod.Monthly),
        Budget("2", "Transportation", 300.0, 120.0, BudgetPeriod.Monthly),
        Budget("3", "Entertainment", 200.0, 45.0, BudgetPeriod.Monthly)],
      debts := [
        Debt("1", "Credit Card", 5000.0, 3200.0, 18.5, 150.0, Some(1763164800000), CreditCard),
        Debt("2", "Student Loan", 25000.0, 18500.0, 4.5, 300.0, Some(1761955200000), Loan)],
      savingsGoals := [
        SavingsGoal("1", "Emergency Fund", 10000.0, 3500.0, 1767139200000, High),
        SavingsGoal("2", "Vacation", 3000.0, 800.0, 1754006400000, Medium)],
      accounts := [
        Account("1", "Main Checking", Bank, 5000.0, currency, Some("National Bank"), Some("****1234")),
        Account("2", "Cash Wallet", Cash, 500.0, currency, None, None),
        Account("3", "M-Pesa", MobileMoney, 1200.0, currency, None, None)],
      assets := [
        Asset("1", "Family Home", Property, 250000.0, Some(1579046400000), Some("3 bedroom house")),
        Asset("2", "Toyota Corolla", Vehicle, 15000.0, Some(1654041600000), None)],
      liabilities := [
        Liability("1", "Home Mortgage", LiabilityMortgage, 180000.0, Some(3.5), Some(1200.0),
                  Some(2368051200000))],
      loansGiven := [
        LoanGiven("1", "John Doe", 1000.0, 400.0, Some(5.0), 1717200000000, Some(1764547200000),
                  Active, Some("Personal loan for business"))],
      bills := [
        Bill("1", "Netflix", 15.99, Subscription, BillFrequency.Monthly, now + 7 * 86400000, true, Some(3), None),
        Bill("2", "Electricity", 85.0, Utility, BillFrequency.Monthly, now + 15 * 86400000, false, Some(5), None)],
      habits := [
        Habit("1", "Track Daily Expenses", Some("Record all expenses in the app"), Financial,
              HabitDaily, Some(30), [], now, Some("#10b981")),
        Habit("2", "Review Budget", Some("Check budget progress and adjust if needed"), Financial,
              HabitWeekly, None, [], now, Some("#3b82f6"))],
      wishlist := [
        WishlistItem("1", "New Laptop", 1200.0, High, WishElectronics, None,
                     Some("For work and personal projects"), 400.0, Some(1767139200000), false, now),
        WishlistItem("2", "Weekend Getaway", 500.0, Medium, Travel, None, None, 150.0, None, false, now)],
      monthlyIncome := 5000.0,
      currency := currency)
  }

  /**
   * A maker of the seeded document: given `Date.now()` and the currency preference, a
   * document in that currency. The store holds `DefaultData` as its maker (see its
   * constructor); the reading and writing rules below hold for any maker.
   */
  type Defaults = f: (int, string) -> FinancialData | forall now: int, currency: string :: f(now, currency).currency == currency
    witness DefaultData

  /* ---------- reading and writing the storage ---------- */

  /** `getCurrency()`: the stored preference, or "KES" when unset, empty or without storage. */
  function CurrencyIn(available: bool, storage: map<string, StoredValue>): (c: string)
    ensures c != ""
    ensures !available ==> c == DefaultCurrency
    ensures available && CurrencyKey in storage && storage[CurrencyKey].Text? && storage[CurrencyKey].text != ""
      ==> c == storage[CurrencyKey].text
    ensures CurrencyKey !in storage ==> c == DefaultCurrency
  {
    if available && CurrencyKey in storage && storage[CurrencyKey].Text? && storage[CurrencyKey].text != ""
    then storage[CurrencyKey].text
    else DefaultCurrency
  }

  /** `!stored`: no value under the document key, or the empty string. */
  predicate NothingStored(storage: map<string, StoredValue>) {
    StorageKey !in storage || storage[StorageKey] == Text("")
  }

  /** A parsed document whose currency is missing gets the current preference. */
  function WithCurrency(d: FinancialData, currency: string): FinancialData {
    if d.currency == "" then d.(currency := currency) else d
  }

  /** The document `getFinancialData()` returns. */
  function LoadFrom(available: bool, storage: map<string, StoredValue>, now: int, defaults: Defaults): (d: FinancialData)
    ensures d.currency != ""
  {
    var currency := CurrencyIn(available, storage);
    if !available || NothingStored(storage) then defaults(now, currency)
    else match storage[StorageKey]
      case Json(d) => WithCurrency(d, currency)
      case _ => defaults(now, currency)
  }

  /** `saveFinancialData(d)`: overwrite the document key, or nothing without storage. */
  function SaveTo(available: bool, storage: map<string, StoredValue>, d: FinancialData): map<string, StoredValue> {
    if available then storage[StorageKey := Json(d)] else storage
  }

  /** The storage after `getFinancialData()`: the defaults are persisted when nothing was stored. */
  function SeedFrom(available: bool, storage: map<string, StoredValue>, now: int, defaults: Defaults): map<string, StoredValue> {
    if available && NothingStored(storage) then SaveTo(available, storage, LoadFrom(available, storage, now, defaults))
    else storage
  }

  /**
   * Reading without storage gives the defaults in "KES"; reading an empty storage gives the
   * defaults in the stored preference and persists exactly them.
   */
  lemma LoadWhenNothingStored(available: bool, storage: map<string, StoredValue>, now: int, defaults: Defaults)
    requires !available || NothingStored(storage)
    ensures LoadFrom(available, storage, now, defaults) == defaults(now, CurrencyIn(available, storage))
    ensures !available ==>
      && LoadFrom(available, storage, now, defaults).currency == "KES"
      && SeedFrom(available, storage, now, defaults) == storage
      && SaveTo(available, storage, LoadFrom(available, storage, now, defaults)) == storage
    ensures available ==> SeedFrom(available, storage, now, defaults) == storage[StorageKey := Json(defaults(now, CurrencyIn(available, storage)))]
  {
  }

  /**
   * Round trip: after saving `d`, reading returns `d`, with a missing currency filled from
   * the preference; the preference itself is not touched by the save.
   */
  lemma SaveThenLoad(storage: map<string, StoredValue>, d: FinancialData, now: int, defaults: Defaults)
    ensures CurrencyIn(true, SaveTo(true, storage, d)) == CurrencyIn(true, storage)
    ensures LoadFrom(true, SaveTo(true, storage, d), now, defaults) == WithCurrency(d, CurrencyIn(true, storage))
    ensures d.currency != "" ==> LoadFrom(true, SaveTo(true, storage, d), now, defaults) == d
  {
    assert StorageKey != CurrencyKey;
  }

  /** Whatever a read persisted is overwritten by the next save, and the preference is unchanged. */
  lemma SaveAfterSeed(available: bool, storage: map<string, StoredValue>, now: int, defaults: Defaults, d: FinancialData)
    ensures SaveTo(available, SeedFrom(available, storage, now, defaults), d) == SaveTo(available, storage, d)
    ensures CurrencyIn(available, SeedFrom(available, storage, now, defaults)) == CurrencyIn(available, storage)
  {
    assert StorageKey != CurrencyKey;
  }

  /**
   * Saving a document and reading it straight back gives that document (its currency is
   * set), persists nothing more, and a second save overwrites the first.
   */
  lemma ReadBack(available: bool, storage: map<string, StoredValue>, d: FinancialData, d': FinancialData, now: int, defaults: Defaults)
    requires d.currency != ""
    ensures available ==> LoadFrom(available, SaveTo(available, storage, d), now, defaults) == d
    ensures SeedFrom(available, SaveTo(available, storage, d), now, defaults) == SaveTo(available, storage, d)
    ensures SaveTo(available, SaveTo(available, storage, d), d') == SaveTo(available, storage, d')
    ensures !available ==> LoadFrom(available, SaveTo(available, storage, d), now, defaults) == LoadFrom(available, storage, now, defaults)
  {
    if available {
      SaveThenLoad(storage, d, now, defaults);
    }
  }

  /** Reading again after a read returns the same document and persists nothing more. */
  lemma LoadAfterSeed(available: bool, storage: map<string, StoredValue>, now: int, defaults: Defaults)
    ensures LoadFrom(available, SeedFrom(available, storage, now, defaults), now, defaults) == LoadFrom(available, storage, now, defaults)
    ensures SeedFrom(available, SeedFrom(available, storage, now, defaults), now, defaults) == SeedFrom(available, storage, now, defaults)
  {
    if available && NothingStored(storage) {
      SaveThenLoad(storage, LoadFrom(available, storage, now, defaults), now, defaults);
    }
  }

  /* ---------- habit completion ---------- */

  /** `(d) => d === date`. */
  function Is(date: int): int -> bool {
    d => d == date
  }

  /**
   * `toggleHabitCompletion`'s edit of `completedDates`: `splice` out the first occurrence of
   * a present date, `push` an absent one.
   */
  function Toggled(dates: seq<int>, date: int): (r: seq<int>)
    ensures date !in dates ==> r == dates + [date]
    ensures date in dates ==> multiset(r) == multiset(dates) - multiset{date}
    ensures date in dates ==>
      var i := Seqs.FindIndex(dates, Is(date));
      0 <= i < |dates| && dates[i] == date && date !in dates[..i] && r == dates[..i] + dates[i + 1..]
  {
    var i := Seqs.FindIndex(dates, Is(date));
    if i >= 0 then
      SpliceFirst(dates, date, i);
      dates[..i] + dates[i + 1..]
    else
      Absent(dates, date);
      dates + [date]
  }

  /** `indexOf` found the first occurrence at `i`: splicing it out removes one copy of `date`. */
  lemma SpliceFirst(dates: seq<int>, date: int, i: int)
    requires i == Seqs.FindIndex(dates, Is(date)) && i >= 0
    ensures dates[i] == date && date !in dates[..i]
    ensures multiset(dates[..i] + dates[i + 1..]) == multiset(dates) - multiset{date}
  {
    assert Is(date)(dates[i]);
    assert dates == dates[..i] + [date] + dates[i + 1..];
    forall k | 0 <= k < i ensures dates[..i][k] != date {
      assert !Is(date)(dates[k]);
    }
  }

  /** `indexOf` found nothing: the date is absent. */
  lemma Absent(dates: seq<int>, date: int)
    requires Seqs.FindIndex(dates, Is(date)) == -1
    ensures date !in dates
  {
    forall k | 0 <= k < |dates| ensures dates[k] != date {
      assert !Is(date)(dates[k]);
    }
  }

  /**
   * Toggling twice: an absent date leaves the list exactly as it was; a date present at most
   * once keeps its membership and the same multiset of dates.
   */
  lemma ToggleTwice(dates: seq<int>, date: int)
    ensures date !in dates ==> Toggled(Toggled(dates, date), date) == dates
    ensures multiset(dates)[date] <= 1 ==>
      (date in Toggled(Toggled(dates, date), date) <==> date in dates) &&
      multiset(Toggled(Toggled(dates, date), date)) == multiset(dates)
  {
    if date !in dates {
      ToggleAbsentTwice(dates, date);
    } else if multiset(dates)[date] <= 1 {
      TogglePresentTwice(dates, date);
    }
  }

  /** An absent date is pushed last, so the second toggle finds it there and splices it out. */
  lemma ToggleAbsentTwice(dates: seq<int>, date: int)
    requires date !in dates
    ensures Toggled(Toggled(dates, date), date) == dates
  {
    var once := dates + [date];
    assert Is(date)(once[|dates|]);
    assert forall i :: 0 <= i < |dates| ==> !Is(date)(once[i]);
    assert Seqs.FindIndex(once, Is(date)) == |dates|;
    assert once[..|dates|] == dates;
  }

  /** A date present once is spliced out, so the second toggle pushes it back. */
  lemma TogglePresentTwice(dates: seq<int>, date: int)
    requires date in dates && multiset(dates)[date] <= 1
    ensures date in Toggled(Toggled(dates, date), date)
    ensures multiset(Toggled(Toggled(dates, date), date)) == multiset(dates)
  {
    var once := Toggled(dates, date);
    assert multiset(once)[date] == 0;
    assert date !in once;
    assert multiset(once + [date]) == multiset(once) + multiset{date};
  }

  /* ---------- the store ---------- */

  class Store {
    /** `typeof window !== "undefined"`. */
    const available: bool
    var storage: map<string, StoredValue>
    /** The sample document the store writes on first use. */
    const defaults: Defaults

    constructor (available: bool, storage: map<string, StoredValue>)
      ensures this.available == available && this.storage == storage
      ensures defaults == DefaultData
    {
      this.available := available;
      this.storage := storage;
      this.defaults := DefaultData;
    }

    /** `getCurrency()`. */
    function Currency(): string
      reads this
    {
      CurrencyIn(available, storage)
    }

    /** The document a read would return now. */
    function Loaded(now: int): FinancialData
      reads this
    {
      LoadFrom(available, storage, now, defaults)
    }

    /** The storage after a read. */
    function Seeded(now: int): map<string, StoredValue>
      reads this
    {
      SeedFrom(available, storage, now, defaults)
    }

    /** The storage after a save of `d`. */
    function Saved(d: FinancialData): map<string, StoredValue>
      reads this
    {
      SaveTo(available, storage, d)
    }

    /** `setCurrency(currency)`. */
    method SetCurrency(currency: string)
      modifies this
      ensures storage == if available then old(storage)[CurrencyKey := Text(currency)] else old(storage)
      ensures currency != "" ==> Currency() == (if available then currency else DefaultCurrency)
    {
      if available {
        storage := storage[CurrencyKey := Text(currency)];
      }
    }

    /** `getFinancialData()`. */
    method GetFinancialData(now: int) returns (data: FinancialData)
      modifies this
      ensures data == old(Loaded(now))
      ensures storage == old(Seeded(now))
      ensures Currency() == old(Currency())
    {
      SaveAfterSeed(available, storage, now, defaults, defaults(now, Currency()));
      if !available {
        return defaults(now, Currency());
      }
      if NothingStored(storage) {
        data := defaults(now, Currency());
        SaveFinancialData(data);
        return;
      }
      match storage[StorageKey]
      case Json(d) =>
        data := WithCurrency(d, Currency());
      case _ =>
        data := defaults(now, Currency());
    }

    /** `saveFinancialData(data)`. */
    method SaveFinancialData(data: FinancialData)
      modifies this
      ensures storage == old(Saved(data))
    {
      if available {
        storage := storage[StorageKey := Json(data)];
      }
    }

    /* Every operation below is a read, a change to one array, and a save. */

    method AddTransaction(transaction: Transaction, newId: string, now: int)
      modifies this
      ensures storage == old(var d := Loaded(now);
        Saved(d.(transactions := [transaction.(id := newId)] + d.transactions)))
    {
      SaveAfterSeed(available, storage, now, defaults, Loaded(now).(transactions := [transaction.(id := newId)] + Loaded(now).transactions));
      var data := GetFinancialData(now);
      data := data.(transactions := [transaction.(id := newId)] + data.transactions);
      SaveFinancialData(data);
    }

    method DeleteTransaction(id: string, now: int)
      modifies this
      ensures storage == old(var d := Loaded(now);
        Saved(d.(transactions := Ids.WithoutId(d.transactions, TransactionId, id))))
    {
      SaveAfterSeed(available, storage, now, defaults, Loaded(now).(transactions := Ids.WithoutId(Loaded(now).transactions, TransactionId, id)));
      var data := GetFinancialData(now);
      data := data.(transactions := Ids.WithoutId(data.transactions, TransactionId, id));
      SaveFinancialData(data);
    }

    method AddBudget(budget: Budget, newId: string, now: int)
      modifies this
      ensures storage == old(var d := Loaded(now);
        Saved(d.(budgets := d.budgets + [budget.(id := newId)])))
    {
      SaveAfterSeed(available, storage, now, defaults, Loaded(now).(budgets := Loaded(now).budgets + [budget.(id := newId)]));
      var data := GetFinancialData(now);
      data := data.(budgets := data.budgets + [budget.(id := newId)]);
      SaveFinancialData(data);
    }

    method UpdateBudget(id: string, updates: BudgetPatch, now: int)
      modifies this
      ensures storage == old(var d := Loaded(now); var i := Ids.IndexOfId(d.budgets, BudgetId, id);
        if i < 0 then Seeded(now) else Saved(d.(budgets := d.budgets[i := updates.ApplyTo(d.budgets[i])])))
    {
      var d0 := Loaded(now);
      var i0 := Ids.IndexOfId(d0.budgets, BudgetId, id);
      if i0 >= 0 {
        SaveAfterSeed(available, storage, now, defaults, d0.(budgets := d0.budgets[i0 := updates.ApplyTo(d0.budgets[i0])]));
      }
      var data := GetFinancialData(now);
      var index := Ids.IndexOfId(data.budgets, BudgetId, id);
      if index != -1 {
        data := data.(budgets := data.budgets[index := updates.ApplyTo(data.budgets[index])]);
        SaveFinancialData(data);
      }
    }

    method DeleteBudget(id: string, now: int)
      modifies this
      ensures storage == old(var d := Loaded(now);
        Saved(d.(budgets := Ids.WithoutId(d.budgets, BudgetId, id))))
    {
      SaveAfterSeed(available, storage, now, defaults, Loaded(now).(budgets := Ids.WithoutId(Loaded(now).budgets, BudgetId, id)));
      var data := GetFinancialData(now);
      data := data.(budgets := Ids.WithoutId(data.budgets, BudgetId, id));
      SaveFinancialData(data);
    }

    method AddDebt(debt: Debt, newId: string, now: int)
      modifies this
      ensures storage == old(var d := Loaded(now);
        Saved(d.(debts := d.debts + [debt.(id := newId)])))
    {
      SaveAfterSeed(available, storage, now, defaults, Loaded(now).(debts := Loaded(now).debts + [debt.(id := newId)]));
      var data := GetFinancialData(now);
      data := data.(debts := data.debts + [debt.(id := newId)]);
      SaveFinancialData(data);
    }

    method UpdateDebt(id: string, updates: DebtPatch, now: int)
      modifies this
      ensures storage == old(var d := Loaded(now); var i := Ids.IndexOfId(d.debts, DebtId, id);
        if i < 0 then Seeded(now) else Saved(d.(debts := d.debts[i := updates.ApplyTo(d.debts[i])])))
    {
      var d0 := Loaded(now);
      var i0 := Ids.IndexOfId(d0.debts, DebtId, id);
      if i0 >= 0 {
        SaveAfterSeed(available, storage, now, defaults, d0.(debts := d0.debts[i0 := updates.ApplyTo(d0.debts[i0])]));
      }
      var data := GetFinancialData(now);
      var index := Ids.IndexOfId(data.debts, DebtId, id);
      if index != -1 {
        data := data.(debts := data.debts[index := updates.ApplyTo(data.debts[index])]);
        SaveFinancialData(data);
      }
    }

    method DeleteDebt(id: string, now: int)
      modifies this
      ensures storage == old(var d := Loaded(now);
        Saved(d.(debts := Ids.WithoutId(d.debts, DebtId, id))))
    {
      SaveAfterSeed(available, storage, now, defaults, Loaded(now).(debts := Ids.WithoutId(Loaded(now).debts, DebtId, id)));
      var data := GetFinancialData(now);
      data := data.(debts := Ids.WithoutId(data.debts, DebtId, id));
      SaveFinancialData(data);
    }

    method AddSavingsGoal(goal: SavingsGoal, newId: string, now: int)
      modifies this
      ensures storage == old(var d := Loaded(now);
        Saved(d.(savingsGoals := d.savingsGoals + [goal.(id := newId)])))
    {
      SaveAfterSeed(available, storage, now, defaults, Loaded(now).(savingsGoals := Loaded(now).savingsGoals + [goal.(id := newId)]));
      var data := GetFinancialData(now);
      data := data.(savingsGoals := data.savingsGoals + [goal.(id := newId)]);
      SaveFinancialData(data);
    }

    method UpdateSavingsGoal(id: string, updates: SavingsGoalPatch, now: int)
      modifies this
      ensures storage == old(var d := Loaded(now); var i := Ids.IndexOfId(d.savingsGoals, SavingsGoalId, id);
        if i < 0 then Seeded(now) else Saved(d.(savingsGoals := d.savingsGoals[i := updates.ApplyTo(d.savingsGoals[i])])))
    {
      var d0 := Loaded(now);
      var i0 := Ids.IndexOfId(d0.savingsGoals, SavingsGoalId, id);
      if i0 >= 0 {
        SaveAfterSeed(available, storage, now, defaults, d0.(savingsGoals := d0.savingsGoals[i0 := updates.ApplyTo(d0.savingsGoals[i0])]));
      }
      var data := GetFinancialData(now);
      var index := Ids.IndexOfId(data.savingsGoals, SavingsGoalId, id);
      if index != -1 {
        data := data.(savingsGoals := data.savingsGoals[index := updates.ApplyTo(data.savingsGoals[index])]);
        SaveFinancialData(data);
      }
    }

    method DeleteSavingsGoal(id: string, now: int)
      modifies this
      ensures storage == old(var d := Loaded(now);
        Saved(d.(savingsGoals := Ids.WithoutId(d.savingsGoals, SavingsGoalId, id))))
    {
      SaveAfterSeed(available, storage, now, defaults, Loaded(now).(savingsGoals := Ids.WithoutId(Loaded(now).savingsGoals, SavingsGoalId, id)));
      var data := GetFinancialData(now);
      data := data.(savingsGoals := Ids.WithoutId(data.savingsGoals, SavingsGoalId, id));
      SaveFinancialData(data);
    }

    method AddAccount(account: Account, newId: string, now: int)
      modifies this
      ensures storage == old(var d := Loaded(now);
        Saved(d.(accounts := d.accounts + [account.(id := newId)])))
    {
      SaveAfterSeed(available, storage, now, defaults, Loaded(now).(accounts := Loaded(now).accounts + [account.(id := newId)]));
      var data := GetFinancialData(now);
      data := data.(accounts := data.accounts + [account.(id := newId)]);
      SaveFinancialData(data);
    }

    method UpdateAccount(id: string, updates: AccountPatch, now: int)
      modifies this
      ensures storage == old(var d := Loaded(now); var i := Ids.IndexOfId(d.accounts, AccountId, id);
        if i < 0 then Seeded(now) else Saved(d.(accounts := d.accounts[i := updates.ApplyTo(d.accounts[i])])))
    {
      var d0 := Loaded(now);
      var i0 := Ids.IndexOfId(d0.accounts, AccountId, id);
      if i0 >= 0 {
        SaveAfterSeed(available, storage, now, defaults, d0.(accounts := d0.accounts[i0 := updates.ApplyTo(d0.accounts[i0])]));
      }
      var data := GetFinancialData(now);
      var index := Ids.IndexOfId(data.accounts, AccountId, id);
      if index != -1 {
        data := data.(accounts := data.accounts[index := updates.ApplyTo(data.accounts[index])]);
        SaveFinancialData(data);
      }
    }

    method DeleteAccount(id: string, now: int)
      modifies this
      ensures storage == old(var d := Loaded(now);
        Saved(d.(accounts := Ids.WithoutId(d.accounts, AccountId, id))))
    {
      SaveAfterSeed(available, storage, now, defaults, Loaded(now).(accounts := Ids.WithoutId(Loaded(now).accounts, AccountId, id)));
      var data := GetFinancialData(now);
      data := data.(accounts := Ids.WithoutId(data.accounts, AccountId, id));
      SaveFinancialData(data);
    }

    method AddAsset(asset: Asset, newId: string, now: int)
      modifies this
      ensures storage == old(var d := Loaded(now);
        Saved(d.(assets := d.assets + [asset.(id := newId)])))
    {
      SaveAfterSeed(available, storage, now, defaults, Loaded(now).(assets := Loaded(now).assets + [asset.(id := newId)]));
      var data := GetFinancialData(now);
      data := data.(assets := data.assets + [asset.(id := newId)]);
      SaveFinancialData(data);
    }

    method UpdateAsset(id: string, updates: AssetPatch, now: int)
      modifies this
      ensures storage == old(var d := Loaded(now); var i := Ids.IndexOfId(d.assets, AssetId, id);
        if i < 0 then Seeded(now) else Saved(d.(assets := d.assets[i := updates.ApplyTo(d.assets[i])])))
    {
      var d0 := Loaded(now);
      var i0 := Ids.IndexOfId(d0.assets, AssetId, id);
      if i0 >= 0 {
        SaveAfterSeed(available, storage, now, defaults, d0.(assets := d0.assets[i0 := updates.ApplyTo(d0.assets[i0])]));
      }
      var data := GetFinancialData(now);
      var index := Ids.IndexOfId(data.assets, AssetId, id);
      if index != -1 {
        data := data.(assets := data.assets[index := updates.ApplyTo(data.assets[index])]);
        SaveFinancialData(data);
      }
    }

    method DeleteAsset(id: string, now: int)
      modifies this
      ensures storage == old(var d := Loaded(now);
        Saved(d.(assets := Ids.WithoutId(d.assets, AssetId, id))))
    {
      SaveAfterSeed(available, storage, now, defaults, Loaded(now).(assets := Ids.WithoutId(Loaded(now).assets, AssetId, id)));
      var data := GetFinancialData(now);
      data := data.(assets := Ids.WithoutId(data.assets, AssetId, id));
      SaveFinancialData(data);
    }

    method AddLiability(liability: Liability, newId: string, now: int)
      modifies this
      ensures storage == old(var d := Loaded(now);
        Saved(d.(liabilities := d.liabilities + [liability.(id := newId)])))
    {
      SaveAfterSeed(available, storage, now, defaults, Loaded(now).(liabilities := Loaded(now).liabilities + [liability.(id := newId)]));
      var data := GetFinancialData(now);
      data := data.(liabilities := data.liabilities + [liability.(id := newId)]);
      SaveFinancialData(data);
    }

    method UpdateLiability(id: string, updates: LiabilityPatch, now: int)
      modifies this
      ensures storage == old(var d := Loaded(now); var i := Ids.IndexOfId(d.liabilities, LiabilityId, id);
        if i < 0 then Seeded(now) else Saved(d.(liabilities := d.liabilities[i := updates.ApplyTo(d.liabilities[i])])))
    {
      var d0 := Loaded(now);
      var i0 := Ids.IndexOfId(d0.liabilities, LiabilityId, id);
      if i0 >= 0 {
        SaveAfterSeed(available, storage, now, defaults, d0.(liabilities := d0.liabilities[i0 := updates.ApplyTo(d0.liabilities[i0])]));
      }
      var data := GetFinancialData(now);
      var index := Ids.IndexOfId(data.liabilities, LiabilityId, id);
      if index != -1 {
        data := data.(liabilities := data.liabilities[index := updates.ApplyTo(data.liabilities[index])]);
        SaveFinancialData(data);
      }
    }

    method DeleteLiability(id: string, now: int)
      modifies this
      ensures storage == old(var d := Loaded(now);
        Saved(d.(liabilities := Ids.WithoutId(d.liabilities, LiabilityId, id))))
    {
      SaveAfterSeed(available, storage, now, defaults, Loaded(now).(liabilities := Ids.WithoutId(Loaded(now).liabilities, LiabilityId, id)));
      var data := GetFinancialData(now);
      data := data.(liabilities := Ids.WithoutId(data.liabilities, LiabilityId, id));
      SaveFinancialData(data);
    }

    method AddLoanGiven(loan: LoanGiven, newId: string, now: int)
      modifies this
      ensures storage == old(var d := Loaded(now);
        Saved(d.(loansGiven := d.loansGiven + [loan.(id := newId)])))
    {
      SaveAfterSeed(available, storage, now, defaults, Loaded(now).(loansGiven := Loaded(now).loansGiven + [loan.(id := newId)]));
      var data := GetFinancialData(now);
      data := data.(loansGiven := data.loansGiven + [loan.(id := newId)]);
      SaveFinancialData(data);
    }

    method UpdateLoanGiven(id: string, updates: LoanGivenPatch, now: int)
      modifies this
      ensures storage == old(var d := Loaded(now); var i := Ids.IndexOfId(d.loansGiven, LoanGivenId, id);
        if i < 0 then Seeded(now) else Saved(d.(loansGiven := d.loansGiven[i := updates.ApplyTo(d.loansGiven[i])])))
    {
      var d0 := Loaded(now);
      var i0 := Ids.IndexOfId(d0.loansGiven, LoanGivenId, id);
      if i0 >= 0 {
        SaveAfterSeed(available, storage, now, defaults, d0.(loansGiven := d0.loansGiven[i0 := updates.ApplyTo(d0.loansGiven[i0])]));
      }
      var data := GetFinancialData(now);
      var index := Ids.IndexOfId(data.loansGiven, LoanGivenId, id);
      if index != -1 {
        data := data.(loansGiven := data.loansGiven[index := updates.ApplyTo(data.loansGiven[index])]);
        SaveFinancialData(data);
      }
    }

    method DeleteLoanGiven(id: string, now: int)
      modifies this
      ensures storage == old(var d := Loaded(now);
        Saved(d.(loansGiven := Ids.WithoutId(d.loansGiven, LoanGivenId, id))))
    {
      SaveAfterSeed(available, storage, now, defaults, Loaded(now).(loansGiven := Ids.WithoutId(Loaded(now).loansGiven, LoanGivenId, id)));
      var data := GetFinancialData(now);
      data := data.(loansGiven := Ids.WithoutId(data.loansGiven, LoanGivenId, id));
      SaveFinancialData(data);
    }

    method AddBill(bill: Bill, newId: string, now: int)
      modifies this
      ensures storage == old(var d := Loaded(now);
        Saved(d.(bills := d.bills + [bill.(id := newId)])))
    {
      SaveAfterSeed(available, storage, now, defaults, Loaded(now).(bills := Loaded(now).bills + [bill.(id := newId)]));
      var data := GetFinancialData(now);
      data := data.(bills := data.bills + [bill.(id := newId)]);
      SaveFinancialData(data);
    }

    method UpdateBill(id: string, updates: BillPatch, now: int)
      modifies this
      ensures storage == old(var d := Loaded(now); var i := Ids.IndexOfId(d.bills, BillId, id);
        if i < 0 then Seeded(now) else Saved(d.(bills := d.bills[i := updates.ApplyTo(d.bills[i])])))
    {
      var d0 := Loaded(now);
      var i0 := Ids.IndexOfId(d0.bills, BillId, id);
      if i0 >= 0 {
        SaveAfterSeed(available, storage, now, defaults, d0.(bills := d0.bills[i0 := updates.ApplyTo(d0.bills[i0])]));
      }
      var data := GetFinancialData(now);
      var index := Ids.IndexOfId(data.bills, BillId, id);
      if index != -1 {
        data := data.(bills := data.bills[index := updates.ApplyTo(data.bills[index])]);
        SaveFinancialData(data);
      }
    }

    method DeleteBill(id: string, now: int)
      modifies this
      ensures storage == old(var d := Loaded(now);
        Saved(d.(bills := Ids.WithoutId(d.bills, BillId, id))))
    {
      SaveAfterSeed(available, storage, now, defaults, Loaded(now).(bills := Ids.WithoutId(Loaded(now).bills, BillId, id)));
      var data := GetFinancialData(now);
      data := data.(bills := Ids.WithoutId(data.bills, BillId, id));
      SaveFinancialData(data);
    }

    method AddHabit(habit: Habit, newId: string, now: int)
      modifies this
      ensures storage == old(var d := Loaded(now);
        Saved(d.(habits := d.habits + [habit.(id := newId)])))
    {
      SaveAfterSeed(available, storage, now, defaults, Loaded(now).(habits := Loaded(now).habits + [habit.(id := newId)]));
      var data := GetFinancialData(now);
      data := data.(habits := data.habits + [habit.(id := newId)]);
      SaveFinancialData(data);
    }

    method UpdateHabit(id: string, updates: HabitPatch, now: int)
      modifies this
      ensures storage == old(var d := Loaded(now); var i := Ids.IndexOfId(d.habits, HabitId, id);
        if i < 0 then Seeded(now) else Saved(d.(habits := d.habits[i := updates.ApplyTo(d.habits[i])])))
    {
      var d0 := Loaded(now);
      var i0 := Ids.IndexOfId(d0.habits, HabitId, id);
      if i0 >= 0 {
        SaveAfterSeed(available, storage, now, defaults, d0.(habits := d0.habits[i0 := updates.ApplyTo(d0.habits[i0])]));
      }
      var data := GetFinancialData(now);
      var index := Ids.IndexOfId(data.habits, HabitId, id);
      if index != -1 {
        data := data.(habits := data.habits[index := updates.ApplyTo(data.habits[index])]);
        SaveFinancialData(data);
      }
    }

    method DeleteHabit(id: string, now: int)
      modifies this
      ensures storage == old(var d := Loaded(now);
        Saved(d.(habits := Ids.WithoutId(d.habits, HabitId, id))))
    {
      SaveAfterSeed(available, storage, now, defaults, Loaded(now).(habits := Ids.WithoutId(Loaded(now).habits, HabitId, id)));
      var data := GetFinancialData(now);
      data := data.(habits := Ids.WithoutId(data.habits, HabitId, id));
      SaveFinancialData(data);
    }

    /** `toggleHabitCompletion(id, date)`: flips `date` in the first habit with that id; an unknown id saves nothing. */
    method ToggleHabitCompletion(id: string, date: int, now: int)
      modifies this
      ensures storage == old(var d := Loaded(now); var i := Ids.IndexOfId(d.habits, HabitId, id);
        if i < 0 then Seeded(now)
        else Saved(d.(habits := d.habits[i := d.habits[i].(completedDates := Toggled(d.habits[i].completedDates, date))])))
    {
      var d0 := Loaded(now);
      var i0 := Ids.IndexOfId(d0.habits, HabitId, id);
      if i0 >= 0 {
        var h0 := d0.habits[i0];
        SaveAfterSeed(available, storage, now, defaults, d0.(habits := d0.habits[i0 := h0.(completedDates := Toggled(h0.completedDates, date))]));
      }
      var data := GetFinancialData(now);
      var index := Ids.IndexOfId(data.habits, HabitId, id);
      if index != -1 {
        var habit := data.habits[index];
        habit := habit.(completedDates := Toggled(habit.completedDates, date));
        data := data.(habits := data.habits[index := habit]);
        SaveFinancialData(data);
      }
    }

    method AddWishlistItem(item: WishlistItem, newId: string, now: int)
      modifies this
      ensures storage == old(var d := Loaded(now);
        Saved(d.(wishlist := d.wishlist + [item.(id := newId)])))
    {
      SaveAfterSeed(available, storage, now, defaults, Loaded(now).(wishlist := Loaded(now).wishlist + [item.(id := newId)]));
      var data := GetFinancialData(now);
      data := data.(wishlist := data.wishlist + [item.(id := newId)]);
      SaveFinancialData(data);
    }

    method UpdateWishlistItem(id: string, updates: WishlistItemPatch, now: int)
      modifies this
      ensures storage == old(var d := Loaded(now); var i := Ids.IndexOfId(d.wishlist, WishlistItemId, id);
        if i < 0 then Seeded(now) else Saved(d.(wishlist := d.wishlist[i := updates.ApplyTo(d.wishlist[i])])))
    {
      var d0 := Loaded(now);
      var i0 := Ids.IndexOfId(d0.wishlist, WishlistItemId, id);
      if i0 >= 0 {
        SaveAfterSeed(available, storage, now, defaults, d0.(wishlist := d0.wishlist[i0 := updates.ApplyTo(d0.wishlist[i0])]));
      }
      var data := GetFinancialData(now);
      var index := Ids.IndexOfId(data.wishlist, WishlistItemId, id);
      if index != -1 {
        data := data.(wishlist := data.wishlist[index := updates.ApplyTo(data.wishlist[index])]);
        SaveFinancialData(data);
      }
    }

    method DeleteWishlistItem(id: string, now: int)
      modifies this
      ensures storage == old(var d := Loaded(now);
        Saved(d.(wishlist := Ids.WithoutId(d.wishlist, WishlistItemId, id))))
    {
      SaveAfterSeed(available, storage, now, defaults, Loaded(now).(wishlist := Ids.WithoutId(Loaded(now).wishlist, WishlistItemId, id)));
      var data := GetFinancialData(now);
      data := data.(wishlist := Ids.WithoutId(data.wishlist, WishlistItemId, id));
      SaveFinancialData(data);
    }
  }
}
