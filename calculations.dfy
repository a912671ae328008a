/**
 * The derived metrics: net worth, this month's income and expenses, the currency display
 * table and the debt payoff formula. "Now" enters as the time value of the first day of the
 * current month.
 */
module Calculations {
  import opened Wrappers
  import opened Types
  import Seqs
  import Numbers

  function CurrentAmount(g: SavingsGoal): real { g.currentAmount }
  function RemainingAmount(d: Debt): real { d.remainingAmount }

  /** `calculateNetWorth`: money saved towards goals minus money still owed. */
  function NetWorth(data: FinancialData): real {
    Seqs.Sum(data.savingsGoals, CurrentAmount) - Seqs.Sum(data.debts, RemainingAmount)
  }

  /**
   * Net worth reads only the goals and the debts: accounts, assets, liabilities, loans and
   * the rest may hold anything. Adding a goal raises it by the goal's saved amount, adding a
   * debt lowers it by the debt's remaining amount.
   */
  lemma {:induction false} NetWorthScope(data: FinancialData, other: FinancialData, g: SavingsGoal, d: Debt)
    requires other.savingsGoals == data.savingsGoals && other.debts == data.debts
    ensures NetWorth(other) == NetWorth(data)
    ensures NetWorth(data.(savingsGoals := data.savingsGoals + [g])) == NetWorth(data) + g.currentAmount
    ensures NetWorth(data.(debts := data.debts + [d])) == NetWorth(data) - d.remainingAmount
  {
    assert (data.savingsGoals + [g])[..|data.savingsGoals|] == data.savingsGoals;
    assert (data.debts + [d])[..|data.debts|] == data.debts;
  }

  function Abs(x: real): real { if x < 0.0 then -x else x }

  function AbsAmount(t: Transaction): real { Abs(t.amount) }
  function Amount(t: Transaction): real { t.amount }

  /** `(t) => t.type === kind && new Date(t.date) >= firstDayOfMonth`. */
  function InMonth(kind: TxType, firstOfMonth: int): Transaction -> bool {
    (t: Transaction) => t.kind == kind && t.date >= firstOfMonth
  }

  /** `calculateMonthlyExpenses`: the absolute amounts of this month's expenses, summed. */
  function MonthlyExpenses(transactions: seq<Transaction>, firstOfMonth: int): (r: real)
    ensures r >= 0.0
  {
    var spent := Seqs.Filter(transactions, InMonth(Expense, firstOfMonth));
    Seqs.SumNonNegative(spent, AbsAmount);
    Seqs.Sum(spent, AbsAmount)
  }

  /** `calculateMonthlyIncome`: this month's income amounts summed as stored, sign included. */
  function MonthlyIncome(transactions: seq<Transaction>, firstOfMonth: int): real {
    Seqs.Sum(Seqs.Filter(transactions, InMonth(Income, firstOfMonth)), Amount)
  }

  /**
   * A new transaction (prepended, as `addTransaction` does) moves exactly one of the two
   * monthly figures, and only if it is dated this month: expenses by its absolute amount,
   * income by its amount as stored.
   */
  lemma {:induction false} MonthlyAfterPrepend(t: Transaction, transactions: seq<Transaction>, firstOfMonth: int)
    ensures MonthlyExpenses([t] + transactions, firstOfMonth) ==
      MonthlyExpenses(transactions, firstOfMonth) + (if t.kind == Expense && t.date >= firstOfMonth then Abs(t.amount) else 0.0)
    ensures MonthlyIncome([t] + transactions, firstOfMonth) ==
      MonthlyIncome(transactions, firstOfMonth) + (if t.kind == Income && t.date >= firstOfMonth then t.amount else 0.0)
  {
    var e, i := InMonth(Expense, firstOfMonth), InMonth(Income, firstOfMonth);
    Seqs.FilterAppend([t], transactions, e);
    Seqs.FilterAppend([t], transactions, i);
    Seqs.SumAppend(Seqs.Filter([t], e), Seqs.Filter(transactions, e), AbsAmount);
    Seqs.SumAppend(Seqs.Filter([t], i), Seqs.Filter(transactions, i), Amount);
    assert [t][..0] == [];
  }

  /** The locale and code handed to `Intl.NumberFormat`. */
  datatype FormatConfig = FormatConfig(locale: string, currency: string)

  /**
   * `formatCurrency`'s table. The code defaults to "KES" and is passed through unchanged;
   * a code outside the table has no entry (the application then fails reading `config.locale`).
   */
  function CurrencyConfig(currency: Option<string>): (r: Option<FormatConfig>)
    ensures r.Some? <==> currency.GetOr("KES") in ["KES", "USD", "EUR"]
    ensures r.Some? ==> r.value.currency == currency.GetOr("KES")
    ensures currency.None? ==> r == Some(FormatConfig("en-KE", "KES"))
  {
    match currency.GetOr("KES")
    case "KES" => Some(FormatConfig("en-KE", "KES"))
    case "USD" => Some(FormatConfig("en-US", "USD"))
    case "EUR" => Some(FormatConfig("en-EU", "EUR"))
    case _ => None
  }

  /**
   * The result of `calculateDebtPayoffMonths`: a number of months, `Infinity`, or the
   * logarithmic formula `ceil(ln(p / (p - r * m)) / ln(1 + m))`, which is kept symbolic.
   */
  datatype Payoff = Months(months: int) | Never | Logarithmic(payment: real, remaining: real, monthlyRate: real)

  /**
   * A positive payment that only covers the interest (`p - r * m == 0` with a positive rate)
   * makes the logarithm `ln(p / 0) = ln(Infinity)`, so the formula gives `Infinity` as well.
   * No other input of the logarithmic branch reaches `Infinity`: a finite ratio has a finite
   * logarithm or NaN, and a rate of zero or below divides by a logarithm that is not positive.
   */
  predicate InterestOnly(remaining: real, payment: real, monthlyRate: real) {
    monthlyRate > 0.0 && payment == remaining * monthlyRate
  }

  function DebtPayoffMonths(remaining: real, payment: real, interestRate: real): (r: Payoff)
    ensures r == Never <==>
      payment <= 0.0 || InterestOnly(remaining, payment, interestRate / 100.0 / 12.0)
    ensures payment > 0.0 && interestRate == 0.0 ==>
      r.Months? && (r.months - 1) as real * payment < remaining <= r.months as real * payment
    ensures payment > 0.0 && interestRate != 0.0 && !InterestOnly(remaining, payment, interestRate / 100.0 / 12.0) ==>
      r == Logarithmic(payment, remaining, interestRate / 100.0 / 12.0)
  {
    if payment <= 0.0 then Never
    else
      var monthlyRate := interestRate / 100.0 / 12.0;
      if monthlyRate == 0.0 then
        var n := Numbers.Ceil(remaining / payment);
        assert (n - 1) as real * payment < remaining by {
          assert (n - 1) as real < remaining / payment;
        }
        assert remaining <= n as real * payment by {
          assert remaining / payment <= n as real;
        }
        Months(n)
      else if InterestOnly(remaining, payment, monthlyRate) then Never
      else Logarithmic(payment, remaining, monthlyRate)
  }

  /**
   * A 1000 balance paid at 100 a month without interest takes 10 months; no payment never
   * ends, and neither does paying only the 10 of monthly interest on 1000 at 12% a year.
   */
  lemma PayoffExamples()
    ensures DebtPayoffMonths(1000.0, 100.0, 0.0) == Months(10)
    ensures DebtPayoffMonths(1000.0, 0.0, 5.0) == Never
    ensures DebtPayoffMonths(1000.0, 10.0, 12.0) == Never
    ensures DebtPayoffMonths(1000.0, 20.0, 12.0).Logarithmic?
  {
    var r := DebtPayoffMonths(1000.0, 100.0, 0.0);
    assert (r.months - 1) as real * 100.0 < 1000.0 <= r.months as real * 100.0;
  }
}
