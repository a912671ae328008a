/**
 * The income-versus-expenses line chart: six month buckets ending with the current month,
 * and for each bucket the income and the expenses of the transactions dated in it.
 *
 * The buckets are computed by moving today's date back with `setMonth`, which keeps the day
 * of the month; when that day does not exist in the target month the date runs over into the
 * next month, so late in a month two buckets can name the same month and a month can be
 * skipped. `Buckets` models that as written and `Last6Months` the six consecutive months the
 * chart is meant to show; `Chart` uses the latter.
 *
 * Local time is a parameter: `today` is the local calendar date of the moment the chart is
 * drawn and `calendar` maps a transaction's time to its local year and month.
 */
module IncomeExpenseChart {
  import opened Types
  import Seqs

  /** A calendar month, numbered from 0 (January) to 11 like `getMonth`. */
  datatype MonthRef = MonthRef(year: int, month: int)

  /** A local calendar date, the month numbered from 0. */
  datatype CivilDate = CivilDate(year: int, month: int, day: int)

  /** Gregorian leap years. */
  predicate IsLeapYear(year: int) {
    (year % 4 == 0 && year % 100 != 0) || year % 400 == 0
  }

  function DaysInMonth(year: int, month: int): (n: int)
    requires 0 <= month < 12
    ensures 28 <= n <= 31
    ensures month == 1 ==> (n == 29 <==> IsLeapYear(year))
  {
    if month == 1 then (if IsLeapYear(year) then 29 else 28)
    else if month == 3 || month == 5 || month == 8 || month == 10 then 30
    else 31
  }

  predicate ValidDate(d: CivilDate) {
    0 <= d.month < 12 && 1 <= d.day <= DaysInMonth(d.year, d.month)
  }

  predicate ValidMonth(m: MonthRef) {
    0 <= m.month < 12
  }

  /** Months counted from January of year 0. */
  function Index(m: MonthRef): int {
    m.year * 12 + m.month
  }

  /** The month with a given index: the inverse of `Index` on valid months. */
  function FromIndex(n: int): (m: MonthRef)
    ensures ValidMonth(m) && Index(m) == n
  {
    MonthRef(n / 12, n % 12)
  }

  /** Two valid months with the same index are the same month. */
  lemma IndexInjective(a: MonthRef, b: MonthRef)
    requires ValidMonth(a) && ValidMonth(b) && Index(a) == Index(b)
    ensures a == b
  {
  }

  function CurrentMonth(today: CivilDate): MonthRef {
    MonthRef(today.year, today.month)
  }

  /* ---------- the buckets ---------- */

  /**
   * `date.setMonth(date.getMonth() - back)` on today's date, read back as year and month: the
   * month `back` months earlier, or the month after it when today's day of the month is past
   * that month's last day.
   */
  function SetMonthBack(today: CivilDate, back: int): MonthRef
    requires ValidDate(today)
  {
    var target := FromIndex(Index(CurrentMonth(today)) - back);
    if today.day <= DaysInMonth(target.year, target.month) then target
    else FromIndex(Index(target) + 1)
  }

  /** `last6Months` as written: bucket `i` moves today back by `5 - i` months. */
  function Buckets(today: CivilDate): seq<MonthRef>
    requires ValidDate(today)
  {
    seq(6, i requires 0 <= i < 6 => SetMonthBack(today, 5 - i))
  }

  /** The six consecutive months ending with the current one, oldest first. */
  function Last6Months(today: CivilDate): seq<MonthRef> {
    seq(6, i requires 0 <= i < 6 => FromIndex(Index(CurrentMonth(today)) - 5 + i))
  }

  predicate Distinct(months: seq<MonthRef>) {
    forall i, j :: 0 <= i < j < |months| ==> months[i] != months[j]
  }

  /** Bucket `i` of the intended six is `5 - i` months before the current one. */
  lemma Last6MonthsIndex(today: CivilDate)
    ensures |Last6Months(today)| == 6
    ensures forall i :: 0 <= i < 6 ==>
      ValidMonth(Last6Months(today)[i]) && Index(Last6Months(today)[i]) == Index(CurrentMonth(today)) - 5 + i
  {
    forall i | 0 <= i < 6
      ensures ValidMonth(Last6Months(today)[i]) && Index(Last6Months(today)[i]) == Index(CurrentMonth(today)) - 5 + i
    {
      assert Last6Months(today)[i] == FromIndex(Index(CurrentMonth(today)) - 5 + i);
    }
  }

  /**
   * The intended buckets are six valid, consecutive, distinct months, the last of them the
   * current month.
   */
  lemma Last6MonthsRule(today: CivilDate)
    requires ValidDate(today)
    ensures |Last6Months(today)| == 6
    ensures forall i :: 0 <= i < 6 ==> ValidMonth(Last6Months(today)[i])
    ensures forall i :: 0 <= i < 5 ==> Index(Last6Months(today)[i + 1]) == Index(Last6Months(today)[i]) + 1
    ensures Last6Months(today)[5] == CurrentMonth(today)
    ensures Distinct(Last6Months(today))
  {
    var ms := Last6Months(today);
    Last6MonthsIndex(today);
    IndexInjective(ms[5], CurrentMonth(today));
  }

  /**
   * Each bucket as written is the intended month or the one after it, and the last bucket is
   * always the current month.
   */
  lemma BucketsNearIntended(today: CivilDate)
    requires ValidDate(today)
    ensures |Buckets(today)| == 6
    ensures forall i :: 0 <= i < 6 ==> ValidMonth(Buckets(today)[i])
    ensures forall i :: 0 <= i < 6 ==>
      Index(Buckets(today)[i]) == Index(Last6Months(today)[i]) ||
      Index(Buckets(today)[i]) == Index(Last6Months(today)[i]) + 1
    ensures Buckets(today)[5] == CurrentMonth(today)
  {
    var target := FromIndex(Index(CurrentMonth(today)));
    IndexInjective(target, CurrentMonth(today));
  }

  /** In the first 28 days of a month the buckets as written are the intended ones. */
  lemma BucketsEarlyInMonth(today: CivilDate)
    requires ValidDate(today) && today.day <= 28
    ensures Buckets(today) == Last6Months(today)
  {
    forall i | 0 <= i < 6 ensures Buckets(today)[i] == Last6Months(today)[i] {
      IndexInjective(Buckets(today)[i], Last6Months(today)[i]);
    }
  }

  /**
   * On 31 October 2025 the buckets as written are May, July, July, August, October, October:
   * June and September are missing and July and October are drawn twice.
   */
  lemma BucketsCounterexample()
    ensures ValidDate(CivilDate(2025, 9, 31))
    ensures Buckets(CivilDate(2025, 9, 31)) ==
      [MonthRef(2025, 4), MonthRef(2025, 6), MonthRef(2025, 6), MonthRef(2025, 7), MonthRef(2025, 9), MonthRef(2025, 9)]
    ensures !Distinct(Buckets(CivilDate(2025, 9, 31)))
    ensures MonthRef(2025, 5) !in Buckets(CivilDate(2025, 9, 31))
    ensures MonthRef(2025, 5) in Last6Months(CivilDate(2025, 9, 31))
  {
    var today := CivilDate(2025, 9, 31);
    var b := Buckets(today);
    IndexInjective(b[0], MonthRef(2025, 4));
    IndexInjective(b[1], MonthRef(2025, 6));
    IndexInjective(b[2], MonthRef(2025, 6));
    IndexInjective(b[3], MonthRef(2025, 7));
    IndexInjective(b[4], MonthRef(2025, 9));
    IndexInjective(b[5], MonthRef(2025, 9));
    var l := Last6Months(today);
    IndexInjective(l[1], MonthRef(2025, 5));
    assert l[1] == MonthRef(2025, 5);
  }

  /* ---------- the points ---------- */

  /** One point of each line: the bucket's month, its income and its expenses. */
  datatype Point = Point(month: MonthRef, income: real, expenses: real)

  function InMonth(calendar: int -> MonthRef, m: MonthRef): Transaction -> bool {
    (t: Transaction) => calendar(t.date) == m
  }

  function OfKind(kind: TxType): Transaction -> bool {
    (t: Transaction) => t.kind == kind
  }

  function Amount(t: Transaction): real { t.amount }

  /** The line a point's value belongs to. */
  function Value(kind: TxType): Point -> real {
    (p: Point) => if kind == Income then p.income else p.expenses
  }

  /**
   * A bucket's point: the transactions dated in its month, then those of each kind, their
   * amounts added as stored.
   */
  function PointFor(transactions: seq<Transaction>, calendar: int -> MonthRef, m: MonthRef): Point {
    var monthTransactions := Seqs.Filter(transactions, InMonth(calendar, m));
    Point(m,
          Seqs.Sum(Seqs.Filter(monthTransactions, OfKind(Income)), Amount),
          Seqs.Sum(Seqs.Filter(monthTransactions, OfKind(Expense)), Amount))
  }

  /** `chartData`: one point per bucket, in bucket order. */
  function ChartData(transactions: seq<Transaction>, calendar: int -> MonthRef, months: seq<MonthRef>): (r: seq<Point>)
    ensures |r| == |months|
    ensures forall i :: 0 <= i < |months| ==> r[i].month == months[i]
  {
    seq(|months|, i requires 0 <= i < |months| => PointFor(transactions, calendar, months[i]))
  }

  /** The chart as written, over the buckets `setMonth` gives. */
  function ChartAsWritten(transactions: seq<Transaction>, calendar: int -> MonthRef, today: CivilDate): seq<Point>
    requires ValidDate(today)
  {
    ChartData(transactions, calendar, Buckets(today))
  }

  /** The chart over the six consecutive months ending with the current one. */
  function Chart(transactions: seq<Transaction>, calendar: int -> MonthRef, today: CivilDate): seq<Point> {
    ChartData(transactions, calendar, Last6Months(today))
  }

  /** The transactions of one kind dated in one of the given months. */
  function KindWithin(calendar: int -> MonthRef, months: seq<MonthRef>, kind: TxType): Transaction -> bool {
    (t: Transaction) => t.kind == kind && calendar(t.date) in months
  }

  function KindIn(calendar: int -> MonthRef, m: MonthRef, kind: TxType): Transaction -> bool {
    (t: Transaction) => calendar(t.date) == m && t.kind == kind
  }

  /** A point's value on one line is the total of that kind in its month. */
  lemma PointValue(transactions: seq<Transaction>, calendar: int -> MonthRef, m: MonthRef, kind: TxType)
    ensures Value(kind)(PointFor(transactions, calendar, m)) ==
      Seqs.Sum(Seqs.Filter(transactions, KindIn(calendar, m, kind)), Amount)
  {
    Seqs.FilterFilter(transactions, InMonth(calendar, m), OfKind(kind), KindIn(calendar, m, kind));
  }

  /**
   * Over distinct months, a line's values add up to the total of that kind over the
   * transactions dated in any of the months: each transaction is counted once.
   */
  lemma {:induction false} LineTotal(transactions: seq<Transaction>, calendar: int -> MonthRef, months: seq<MonthRef>, kind: TxType)
    requires Distinct(months)
    ensures Seqs.Sum(ChartData(transactions, calendar, months), Value(kind)) ==
      Seqs.Sum(Seqs.Filter(transactions, KindWithin(calendar, months, kind)), Amount)
  {
    if months == [] {
      assert forall i :: 0 <= i < |transactions| ==> !KindWithin(calendar, months, kind)(transactions[i]);
    } else {
      var before := months[..|months| - 1];
      var m := months[|months| - 1];
      var points := ChartData(transactions, calendar, months);
      assert points[..|points| - 1] == ChartData(transactions, calendar, before);
      LineTotal(transactions, calendar, before, kind);
      PointValue(transactions, calendar, m, kind);
      assert m !in before;
      Seqs.SumFilterSplit(transactions, KindWithin(calendar, before, kind), KindIn(calendar, m, kind),
                          KindWithin(calendar, months, kind), Amount);
    }
  }

  /**
   * The chart's income line adds up to the income dated in the last six months and its
   * expense line to the expenses dated there, each transaction counted once.
   */
  lemma ChartTotals(transactions: seq<Transaction>, calendar: int -> MonthRef, today: CivilDate)
    requires ValidDate(today)
    ensures Seqs.Sum(Chart(transactions, calendar, today), Value(Income)) ==
      Seqs.Sum(Seqs.Filter(transactions, KindWithin(calendar, Last6Months(today), Income)), Amount)
    ensures Seqs.Sum(Chart(transactions, calendar, today), Value(Expense)) ==
      Seqs.Sum(Seqs.Filter(transactions, KindWithin(calendar, Last6Months(today), Expense)), Amount)
  {
    Last6MonthsRule(today);
    LineTotal(transactions, calendar, Last6Months(today), Income);
    LineTotal(transactions, calendar, Last6Months(today), Expense);
  }

  /** A single transaction contributes its amount to its own month's point on its own line. */
  lemma OneTransaction(t: Transaction, calendar: int -> MonthRef, m: MonthRef, kind: TxType)
    ensures Value(kind)(PointFor([t], calendar, m)) ==
      if calendar(t.date) == m && t.kind == kind then t.amount else 0.0
  {
    PointValue([t], calendar, m, kind);
    assert [t][..0] == [];
  }

  /** The sum over six points, written out. */
  lemma SumSix(points: seq<Point>, f: Point -> real)
    requires |points| == 6
    ensures Seqs.Sum(points, f) ==
      f(points[0]) + f(points[1]) + f(points[2]) + f(points[3]) + f(points[4]) + f(points[5])
  {
    assert points[..5][..4] == points[..4];
    assert points[..4][..3] == points[..3];
    assert points[..3][..2] == points[..2];
    assert points[..2][..1] == points[..1];
    assert points[..1][..0] == [];
    assert Seqs.Sum(points[..1], f) == f(points[0]);
    assert Seqs.Sum(points[..2], f) == Seqs.Sum(points[..1], f) + f(points[1]);
    assert Seqs.Sum(points[..3], f) == Seqs.Sum(points[..2], f) + f(points[2]);
    assert Seqs.Sum(points[..4], f) == Seqs.Sum(points[..3], f) + f(points[3]);
    assert Seqs.Sum(points[..5], f) == Seqs.Sum(points[..4], f) + f(points[4]);
    assert points[..6] == points;
  }

  /** The sample of the counterexample: one income of 100, dated in October 2025. */
  function OctoberIncome(): Transaction {
    Transaction("1", 0, "Salary", 100.0, "Salary", Income)
  }

  /** The local calendar of the counterexample: every time falls in October 2025. */
  function OctoberCalendar(): int -> MonthRef {
    (time: int) => MonthRef(2025, 9)
  }

  /**
   * As written, one income of 100 dated in October 2025 is drawn twice on 31 October 2025:
   * the income line adds up to 200.
   */
  lemma ChartAsWrittenCounterexample()
    ensures ValidDate(CivilDate(2025, 9, 31))
    ensures Seqs.Sum(ChartAsWritten([OctoberIncome()], OctoberCalendar(), CivilDate(2025, 9, 31)), Value(Income)) == 200.0
  {
    BucketsCounterexample();
    var months := [MonthRef(2025, 4), MonthRef(2025, 6), MonthRef(2025, 6), MonthRef(2025, 7), MonthRef(2025, 9), MonthRef(2025, 9)];
    OctoberDrawnTwice(months);
  }

  /** Over those buckets the October income shows in the last two points only. */
  lemma OctoberDrawnTwice(months: seq<MonthRef>)
    requires months == [MonthRef(2025, 4), MonthRef(2025, 6), MonthRef(2025, 6), MonthRef(2025, 7), MonthRef(2025, 9), MonthRef(2025, 9)]
    ensures Seqs.Sum(ChartData([OctoberIncome()], OctoberCalendar(), months), Value(Income)) == 200.0
  {
    var t := OctoberIncome();
    var points := ChartData([t], OctoberCalendar(), months);
    assert OctoberCalendar()(t.date) == MonthRef(2025, 9);
    forall i | 0 <= i < 6 ensures Value(Income)(points[i]) == if i < 4 then 0.0 else 100.0 {
      OneTransaction(t, OctoberCalendar(), months[i], Income);
    }
    SumSix(points, Value(Income));
  }

  /** Over the six consecutive months the same income is drawn once: the line adds up to 100. */
  lemma ChartCorrected()
    ensures ValidDate(CivilDate(2025, 9, 31))
    ensures Seqs.Sum(Chart([OctoberIncome()], OctoberCalendar(), CivilDate(2025, 9, 31)), Value(Income)) == 100.0
  {
    var today := CivilDate(2025, 9, 31);
    var t := OctoberIncome();
    ChartTotals([t], OctoberCalendar(), today);
    Last6MonthsRule(today);
    assert Last6Months(today)[5] == MonthRef(2025, 9);
    assert Seqs.Filter([t], KindWithin(OctoberCalendar(), Last6Months(today), Income)) == [t];
    assert [t][..0] == [];
  }
}
