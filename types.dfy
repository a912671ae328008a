/**
 * The records of the financial document and the document itself.
 *
 * Time values (ISO date strings in the application) are milliseconds since the epoch;
 * a habit's completed dates ("YYYY-MM-DD" keys) are day numbers since the epoch.
 * Money is `real`. A currency is the code string that was stored: the application
 * declares three codes but reads back whatever text the preference holds.
 * `type` is a Dafny keyword, so the records' `type` field is called `kind`.
 */
module Types {
  import opened Wrappers

  datatype TxType = Income | Expense

  datatype Transaction = Transaction(
    id: string,
    date: int,
    description: string,
    amount: real,
    category: string,
    kind: TxType)

  datatype BudgetPeriod = Monthly | Weekly | Yearly

  datatype Budget = Budget(
    id: string,
    category: string,
    limit: real,
    spent: real,
    period: BudgetPeriod)

  datatype DebtKind = CreditCard | Loan | Mortgage | OtherDebt

  datatype Debt = Debt(
    id: string,
    name: string,
    totalAmount: real,
    remainingAmount: real,
    interestRate: real,
    minimumPayment: real,
    dueDate: Option<int>,
    kind: DebtKind)

  datatype Priority = High | Medium | Low

  datatype SavingsGoal = SavingsGoal(
    id: string,
    name: string,
    targetAmount: real,
    currentAmount: real,
    deadline: int,
    priority: Priority)

  datatype AccountKind = Bank | Cash | MobileMoney | Investment | OtherAccount

  datatype Account = Account(
    id: string,
    name: string,
    kind: AccountKind,
    balance: real,
    currency: string,
    institution: Option<string>,
    accountNumber: Option<string>)

  datatype AssetKind = Property | Vehicle | AssetInvestment | Jewelry | Electronics | OtherAsset

  datatype Asset = Asset(
    id: string,
    name: string,
    kind: AssetKind,
    value: real,
    purchaseDate: Option<int>,
    description: Option<string>)

  datatype LiabilityKind = LiabilityMortgage | CarLoan | PersonalLoan | LiabilityCreditCard | OtherLiability

  datatype Liability = Liability(
    id: string,
    name: string,
    kind: LiabilityKind,
    amount: real,
    interestRate: Option<real>,
    monthlyPayment: Option<real>,
    dueDate: Option<int>)

  datatype LoanStatus = Active | Repaid | Overdue

  datatype LoanGiven = LoanGiven(
    id: string,
    borrowerName: string,
    amount: real,
    amountRepaid: real,
    interestRate: Option<real>,
    loanDate: int,
    dueDate: Option<int>,
    status: LoanStatus,
    notes: Option<string>)

  datatype BillCategory = Subscription | Utility | Insurance | Rent | LoanPayment | OtherBill

  datatype BillFrequency = Daily | Weekly | Monthly | Quarterly | Yearly

  datatype Bill = Bill(
    id: string,
    name: string,
    amount: real,
    category: BillCategory,
    frequency: BillFrequency,
    nextDueDate: int,
    autoPayEnabled: bool,
    reminderDays: Option<int>,
    notes: Option<string>)

  datatype HabitCategory = Financial | Health | Productivity | Personal | OtherHabit

  datatype HabitFrequency = HabitDaily | HabitWeekly | HabitMonthly

  datatype Habit = Habit(
    id: string,
    name: string,
    description: Option<string>,
    category: HabitCategory,
    frequency: HabitFrequency,
    targetDays: Option<int>,
    completedDates: seq<int>,
    createdDate: int,
    color: Option<string>)

  datatype WishlistCategory = WishElectronics | Clothing | Travel | Home | Entertainment | OtherWish

  datatype WishlistItem = WishlistItem(
    id: string,
    name: string,
    price: real,
    priority: Priority,
    category: WishlistCategory,
    url: Option<string>,
    notes: Option<string>,
    savedAmount: real,
    targetDate: Option<int>,
    isPurchased: bool,
    addedDate: int)

  /** The one document that holds all of a user's records. */
  datatype FinancialData = FinancialData(
    transactions: seq<Transaction>,
    budgets: seq<Budget>,
    debts: seq<Debt>,
    savingsGoals: seq<SavingsGoal>,
    accounts: seq<Account>,
    assets: seq<Asset>,
    liabilities: seq<Liability>,
    loansGiven: seq<LoanGiven>,
    bills: seq<Bill>,
    habits: seq<Habit>,
    wishlist: seq<WishlistItem>,
    monthlyIncome: real,
    currency: string)
}
