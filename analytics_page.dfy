/**
 * The rules of the analytics page: the savings rate and the debt-to-income ratio, the
 * insights list built from them, the labels under the two cards, the three health scores and
 * the daily and projected spending. The month's income and expenses and the net worth come
 * from the calculations module.
 */
module AnalyticsPage {
  import opened Types
  import Seqs
  import Calculations
  import BudgetsPage

  /** The figures the page derives from the document for the month starting at `firstOfMonth`. */
  datatype Metrics = Metrics(
    netWorth: real,
    monthlyExpenses: real,
    monthlyIncome: real,
    savingsRate: real,
    totalDebt: real,
    debtToIncome: real)

  /**
   * `savingsRate`: the share of this month's income not spent, in percent, or 0 without
   * income. It is not negative exactly when spending stays within income, and 100 exactly
   * when nothing was spent.
   */
  function SavingsRate(income: real, expenses: real): (r: real)
    ensures income <= 0.0 ==> r == 0.0
    ensures income > 0.0 ==> r * income == (income - expenses) * 100.0
    ensures income > 0.0 ==> (r >= 0.0 <==> expenses <= income)
    ensures income > 0.0 && expenses >= 0.0 ==> r <= 100.0
    ensures income > 0.0 ==> (r == 100.0 <==> expenses == 0.0)
  {
    if income > 0.0 then (income - expenses) / income * 100.0 else 0.0
  }

  /**
   * `debtToIncomeRatio`: what is owed against a year of this month's income, in percent, or
   * 0 without income. It exceeds 40 exactly when the debt exceeds 4.8 months of income.
   */
  function DebtToIncome(totalDebt: real, income: real): (r: real)
    ensures income <= 0.0 ==> r == 0.0
    ensures income > 0.0 ==> r * income * 12.0 == totalDebt * 100.0
    ensures income > 0.0 ==> (r > 40.0 <==> totalDebt > 4.8 * income)
    ensures totalDebt >= 0.0 ==> r >= 0.0
  {
    if income > 0.0 then
      var q := totalDebt / (income * 12.0);
      assert q * (income * 12.0) == totalDebt;
      assert q * 100.0 > 40.0 <==> q * (income * 12.0) > 0.4 * (income * 12.0);
      q * 100.0
    else 0.0
  }

  /** The figures of the page for a document and the first day of the current month. */
  function MetricsOf(data: FinancialData, firstOfMonth: int): (m: Metrics)
    ensures m.monthlyExpenses >= 0.0
    ensures m.monthlyIncome > 0.0 ==> m.savingsRate <= 100.0
    ensures m.savingsRate == SavingsRate(m.monthlyIncome, m.monthlyExpenses)
    ensures m.debtToIncome == DebtToIncome(m.totalDebt, m.monthlyIncome)
  {
    var expenses := Calculations.MonthlyExpenses(data.transactions, firstOfMonth);
    var income := Calculations.MonthlyIncome(data.transactions, firstOfMonth);
    var totalDebt := Seqs.Sum(data.debts, Calculations.RemainingAmount);
    Metrics(Calculations.NetWorth(data), expenses, income, SavingsRate(income, expenses),
            totalDebt, DebtToIncome(totalDebt, income))
  }

  /* ---------- insights ---------- */

  /** `b.spent > b.limit`, the over-budget test of this page. */
  predicate Overspent(b: Budget) {
    b.spent > b.limit
  }

  function Category(b: Budget): string { b.category }

  /** The categories of the budgets that are over, in order. */
  function OverBudgetCategories(budgets: seq<Budget>): (r: seq<string>)
    ensures |r| == |Seqs.Filter(budgets, Overspent)|
  {
    var over := Seqs.Filter(budgets, Overspent);
    seq(|over|, i requires 0 <= i < |over| => over[i].category)
  }

  /** One alert of the insights list; the payload is the figure its text shows. */
  datatype Insight =
    | LowSavingsRate(rate: real)
    | GreatSavingsRate(rate: real)
    | HighDebtToIncome(ratio: real)
    | OverBudget(categories: seq<string>)
    | PositiveNetWorth(netWorth: real)

  /** `type === "warning"`. */
  predicate IsWarning(i: Insight) {
    i.LowSavingsRate? || i.HighDebtToIncome? || i.OverBudget?
  }

  /** The place of an insight in the list; the two savings alerts share a place. */
  function Place(i: Insight): int {
    match i
    case LowSavingsRate(_) => 0
    case GreatSavingsRate(_) => 0
    case HighDebtToIncome(_) => 1
    case OverBudget(_) => 2
    case PositiveNetWorth(_) => 3
  }

  /** The savings alert: a warning below 10%, a success from 20% on, nothing in between. */
  function SavingsInsight(rate: real): seq<Insight> {
    if rate < 10.0 then [LowSavingsRate(rate)] else if rate >= 20.0 then [GreatSavingsRate(rate)] else []
  }

  /** The debt alert, above 40%. */
  function DebtInsight(ratio: real): seq<Insight> {
    if ratio > 40.0 then [HighDebtToIncome(ratio)] else []
  }

  /** The over-budget alert, when some budget is over. */
  function BudgetInsight(budgets: seq<Budget>): seq<Insight> {
    if |Seqs.Filter(budgets, Overspent)| > 0 then [OverBudget(OverBudgetCategories(budgets))] else []
  }

  /** The three alerts that can be warnings, in push order. */
  function Alerts(m: Metrics, budgets: seq<Budget>): seq<Insight> {
    SavingsInsight(m.savingsRate) + DebtInsight(m.debtToIncome) + BudgetInsight(budgets)
  }

  /** The net-worth success, pushed last and only when no warning precedes it. */
  function NetWorthInsight(netWorth: real, alerts: seq<Insight>): seq<Insight> {
    if netWorth > 0.0 && |Seqs.Filter(alerts, IsWarning)| == 0 then [PositiveNetWorth(netWorth)] else []
  }

  /** The whole list the page shows. */
  function InsightsOf(m: Metrics, budgets: seq<Budget>): seq<Insight> {
    Alerts(m, budgets) + NetWorthInsight(m.netWorth, Alerts(m, budgets))
  }

  /** No warning is pushed exactly when savings reach 10%, debt stays at or below 40% and no budget is over. */
  lemma WarningFree(m: Metrics, budgets: seq<Budget>)
    ensures |Seqs.Filter(Alerts(m, budgets), IsWarning)| == 0 <==>
      m.savingsRate >= 10.0 && m.debtToIncome <= 40.0 && forall k :: 0 <= k < |budgets| ==> !Overspent(budgets[k])
  {
    var s, d, b := SavingsInsight(m.savingsRate), DebtInsight(m.debtToIncome), BudgetInsight(budgets);
    var alerts := s + d + b;
    Seqs.FilterCount(budgets, Overspent);
    Seqs.FilterCount(alerts, IsWarning);
    if m.savingsRate < 10.0 {
      assert IsWarning(alerts[0]);
    } else if m.debtToIncome > 40.0 {
      assert IsWarning(alerts[|s|]);
    } else if |Seqs.Filter(budgets, Overspent)| > 0 {
      assert IsWarning(alerts[|s| + |d|]);
    } else {
      assert alerts == s;
    }
  }

  /** An insight is in the list exactly when it is one of the four parts. */
  lemma InsightsParts(m: Metrics, budgets: seq<Budget>, x: Insight)
    ensures x in InsightsOf(m, budgets) <==>
      x in SavingsInsight(m.savingsRate) || x in DebtInsight(m.debtToIncome) || x in BudgetInsight(budgets) ||
      x in NetWorthInsight(m.netWorth, Alerts(m, budgets))
  {
  }

  /**
   * The insights list holds a low-savings warning exactly below 10%, a great-savings success
   * exactly from 20% on, a debt warning exactly above 40%, and an over-budget warning
   * exactly when some budget is over.
   */
  lemma WarningsRule(m: Metrics, budgets: seq<Budget>)
    ensures LowSavingsRate(m.savingsRate) in InsightsOf(m, budgets) <==> m.savingsRate < 10.0
    ensures GreatSavingsRate(m.savingsRate) in InsightsOf(m, budgets) <==> m.savingsRate >= 20.0
    ensures HighDebtToIncome(m.debtToIncome) in InsightsOf(m, budgets) <==> m.debtToIncome > 40.0
    ensures OverBudget(OverBudgetCategories(budgets)) in InsightsOf(m, budgets) <==>
      exists k :: 0 <= k < |budgets| && Overspent(budgets[k])
  {
    Seqs.FilterCount(budgets, Overspent);
    InsightsParts(m, budgets, LowSavingsRate(m.savingsRate));
    InsightsParts(m, budgets, GreatSavingsRate(m.savingsRate));
    InsightsParts(m, budgets, HighDebtToIncome(m.debtToIncome));
    InsightsParts(m, budgets, OverBudget(OverBudgetCategories(budgets)));
  }

  /**
   * The net-worth success is shown exactly when the net worth is positive and none of the
   * three warnings applies, and the list holds nothing but these five alerts.
   */
  lemma SuccessRule(m: Metrics, budgets: seq<Budget>)
    ensures PositiveNetWorth(m.netWorth) in InsightsOf(m, budgets) <==>
      m.netWorth > 0.0 && m.savingsRate >= 10.0 && m.debtToIncome <= 40.0 &&
      forall k :: 0 <= k < |budgets| ==> !Overspent(budgets[k])
    ensures forall x :: x in InsightsOf(m, budgets) ==>
      x in [LowSavingsRate(m.savingsRate), GreatSavingsRate(m.savingsRate), HighDebtToIncome(m.debtToIncome),
            OverBudget(OverBudgetCategories(budgets)), PositiveNetWorth(m.netWorth)]
  {
    WarningFree(m, budgets);
    InsightsParts(m, budgets, PositiveNetWorth(m.netWorth));
    forall x | x in InsightsOf(m, budgets)
      ensures x in [LowSavingsRate(m.savingsRate), GreatSavingsRate(m.savingsRate), HighDebtToIncome(m.debtToIncome),
                    OverBudget(OverBudgetCategories(budgets)), PositiveNetWorth(m.netWorth)]
    {
      InsightsParts(m, budgets, x);
    }
  }

  /** The list is in push order and holds each alert at most once; the two savings alerts exclude each other. */
  lemma InsightsOrder(m: Metrics, budgets: seq<Budget>)
    ensures var r := InsightsOf(m, budgets);
      forall i, j :: 0 <= i < j < |r| ==> Place(r[i]) < Place(r[j])
  {
  }

  /**
   * The `insights` array, pushed alert by alert as the page does: a low-savings warning or
   * a great-savings success, the debt warning, the over-budget warning naming the
   * categories, and the net-worth success only when no warning was pushed.
   */
  method Insights(m: Metrics, budgets: seq<Budget>) returns (insights: seq<Insight>)
    ensures insights == InsightsOf(m, budgets)
  {
    insights := [];
    if m.savingsRate < 10.0 {
      insights := insights + [LowSavingsRate(m.savingsRate)];
    } else if m.savingsRate >= 20.0 {
      insights := insights + [GreatSavingsRate(m.savingsRate)];
    }
    if m.debtToIncome > 40.0 {
      insights := insights + [HighDebtToIncome(m.debtToIncome)];
    }
    var overBudgetCategories := Seqs.Filter(budgets, Overspent);
    if |overBudgetCategories| > 0 {
      insights := insights + [OverBudget(OverBudgetCategories(budgets))];
    }
    assert insights == Alerts(m, budgets);
    var warnings := Seqs.Filter(insights, IsWarning);
    if m.netWorth > 0.0 && |warnings| == 0 {
      insights := insights + [PositiveNetWorth(m.netWorth)];
    }
  }

  /* ---------- labels, scores and spending ---------- */

  /** The words under the two cards; "High" is `HighRatio`. */
  datatype Label = Excellent | Good | NeedsImprovement | HighRatio

  /** The word under the savings rate. */
  function SavingsLabel(rate: real): Label {
    if rate >= 20.0 then Excellent else if rate >= 10.0 then Good else NeedsImprovement
  }

  /** The word under the debt-to-income ratio. */
  function DebtLabel(ratio: real): Label {
    if ratio < 20.0 then Excellent else if ratio < 40.0 then Good else HighRatio
  }

  /**
   * The labels agree with the insights: "Needs improvement" goes with the low-savings
   * warning and "Excellent" with the great-savings success; the debt warning always comes
   * with "High", but a ratio of exactly 40 is labelled "High" without a warning.
   */
  lemma LabelsRule(rate: real, ratio: real)
    ensures SavingsLabel(rate) == NeedsImprovement <==> rate < 10.0
    ensures SavingsLabel(rate) == Excellent <==> rate >= 20.0
    ensures ratio > 40.0 ==> DebtLabel(ratio) == HighRatio
    ensures DebtLabel(ratio) == HighRatio && !(ratio > 40.0) <==> ratio == 40.0
  {
  }

  /** The savings score, `Math.min(savingsRate * 5, 100)`: full from a 20% rate on. */
  function SavingsScore(rate: real): (r: real)
    ensures r <= 100.0
    ensures r == 100.0 <==> rate >= 20.0
    ensures rate >= 0.0 ==> r >= 0.0
  {
    if rate * 5.0 < 100.0 then rate * 5.0 else 100.0
  }

  /** The debt score, `Math.max(100 - debtToIncomeRatio, 0)`: zero from a ratio of 100 on. */
  function DebtScore(ratio: real): (r: real)
    ensures r >= 0.0
    ensures ratio >= 0.0 ==> r <= 100.0
    ensures r == 0.0 <==> ratio >= 100.0
    ensures r == 100.0 <==> ratio == 0.0
  {
    if 100.0 - ratio > 0.0 then 100.0 - ratio else 0.0
  }

  /**
   * The budget score: the share of budgets not over, in percent. It is a percentage, full
   * exactly when there are budgets and none is over; with no budgets at all it is 0.
   */
  function BudgetScore(budgets: seq<Budget>): (r: real)
    ensures 0.0 <= r <= 100.0
    ensures budgets == [] ==> r == 0.0
    ensures budgets != [] ==> (r == 100.0 <==> forall k :: 0 <= k < |budgets| ==> !Overspent(budgets[k]))
  {
    var n := |budgets|;
    var over := |Seqs.Filter(budgets, Overspent)|;
    Seqs.FilterCount(budgets, Overspent);
    var denominator := if n > 1 then n else 1;
    ShareBounds(n - over, denominator);
    var share := (n - over) as real / denominator as real;
    share * 100.0
  }

  /** A part of a positive whole, as a fraction, lies in [0, 1] and is 1 exactly for the whole. */
  lemma ShareBounds(part: int, whole: int)
    requires 0 <= part <= whole && whole >= 1
    ensures 0.0 <= part as real / whole as real <= 1.0
    ensures part as real / whole as real == 1.0 <==> part == whole
  {
    var q := part as real / whole as real;
    assert q * whole as real == part as real;
  }

  /**
   * This page's over-budget test differs from the budgets page's only for a negative limit:
   * with a limit of zero or more they agree, and with a negative limit they never both hold.
   */
  lemma OverspentAgrees(b: Budget)
    ensures b.limit >= 0.0 ==> (Overspent(b) <==> BudgetsPage.IsOverBudget(b))
    ensures b.limit < 0.0 ==> !(Overspent(b) && BudgetsPage.IsOverBudget(b))
  {
    BudgetsPage.OverBudgetRule(b);
  }

  /** "Avg Daily Spending", `monthlyExpenses / 30`. */
  function AverageDailySpending(expenses: real): real {
    expenses / 30.0
  }

  /** "Projected Monthly", the daily average times 30: this month's expenses again. */
  function ProjectedMonthlySpending(expenses: real): (r: real)
    ensures r == expenses
    ensures r == 30.0 * AverageDailySpending(expenses)
  {
    AverageDailySpending(expenses) * 30.0
  }
}
