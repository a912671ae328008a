/**
 * The spending-by-category bar chart: the expenses are totalled per category in a record
 * filled one transaction at a time, the record's entries are sorted by amount, largest
 * first, and the first six are drawn.
 */
module SpendingChart {
  import opened Types
  import Seqs

  predicate IsExpense(t: Transaction) {
    t.kind == Expense
  }

  function InCategory(c: string): Transaction -> bool {
    (t: Transaction) => t.category == c
  }

  function Amount(t: Transaction): real { t.amount }

  /** The expenses the chart reads, `transactions.filter((t) => t.type === "expense")`. */
  function Expenses(transactions: seq<Transaction>): seq<Transaction> {
    Seqs.Filter(transactions, IsExpense)
  }

  /** The total of one category: the expenses filed under it, amounts added as stored. */
  function CategorySum(expenses: seq<Transaction>, c: string): real {
    Seqs.Sum(Seqs.Filter(expenses, InCategory(c)), Amount)
  }

  /** The categories met among the first `n` expenses. */
  ghost function CategoriesAmong(expenses: seq<Transaction>, n: nat): set<string>
    requires n <= |expenses|
  {
    set j | 0 <= j < n :: expenses[j].category
  }

  /** Summing a one-longer prefix adds the new expense exactly when it is filed under `c`. */
  lemma {:induction false} SumStep(expenses: seq<Transaction>, k: nat, c: string)
    requires k < |expenses|
    ensures CategorySum(expenses[..k + 1], c) ==
      CategorySum(expenses[..k], c) + (if expenses[k].category == c then expenses[k].amount else 0.0)
  {
    assert expenses[..k + 1][..k] == expenses[..k];
  }

  /** A category not met among the first `k` expenses sums to 0 there. */
  lemma {:induction false} UnseenSum(expenses: seq<Transaction>, k: nat, c: string)
    requires k <= |expenses| && c !in CategoriesAmong(expenses, k)
    ensures CategorySum(expenses[..k], c) == 0.0
  {
    assert forall i :: 0 <= i < k ==> !InCategory(c)(expenses[..k][i]);
  }

  /** The record `reduce` builds from the first `n` expenses, one callback at a time. */
  ghost function Tally(expenses: seq<Transaction>, n: nat): map<string, real>
    requires n <= |expenses|
  {
    if n == 0 then map[]
    else
      var before := Tally(expenses, n - 1);
      var t := expenses[n - 1];
      before[t.category := (if t.category in before then before[t.category] else 0.0) + t.amount]
  }

  /**
   * After the first `n` expenses the record has a key for each category met so far, holding
   * that category's total over those expenses.
   */
  lemma {:induction false} TallyRule(expenses: seq<Transaction>, n: nat)
    requires n <= |expenses|
    ensures Tally(expenses, n).Keys == CategoriesAmong(expenses, n)
    ensures forall c :: c in Tally(expenses, n) ==> Tally(expenses, n)[c] == CategorySum(expenses[..n], c)
  {
    if n > 0 {
      var k := n - 1;
      TallyRule(expenses, k);
      var before := Tally(expenses, k);
      var t := expenses[k];
      if t.category !in before {
        UnseenSum(expenses, k, t.category);
      }
      forall c | c in Tally(expenses, n) ensures Tally(expenses, n)[c] == CategorySum(expenses[..n], c) {
        SumStep(expenses, k, c);
      }
      assert CategoriesAmong(expenses, n) == CategoriesAmong(expenses, k) + {t.category};
    }
  }

  /**
   * The `reduce` into `categoryData`, with the order in which categories first appear (the
   * order `Object.entries` reports them in). Every expense category gets one key, holding
   * the sum of that category's amounts; no other key is created.
   */
  method CategoryTotals(transactions: seq<Transaction>) returns (totals: map<string, real>, order: seq<string>)
    ensures forall i, j :: 0 <= i < j < |order| ==> order[i] != order[j]
    ensures forall c :: c in order <==> c in totals
    ensures forall c :: c in totals <==> exists t :: t in transactions && IsExpense(t) && t.category == c
    ensures forall c :: c in totals ==> totals[c] == CategorySum(Expenses(transactions), c)
  {
    var expenses := Expenses(transactions);
    totals := map[];
    order := [];
    var k := 0;
    while k < |expenses|
      invariant 0 <= k <= |expenses|
      invariant forall i, j :: 0 <= i < j < |order| ==> order[i] != order[j]
      invariant forall c :: c in order <==> c in totals
      invariant totals == Tally(expenses, k)
    {
      var t := expenses[k];
      if t.category !in totals {
        totals := totals[t.category := 0.0];
        order := order + [t.category];
      }
      totals := totals[t.category := totals[t.category] + t.amount];
      k := k + 1;
    }
    TallyRule(expenses, k);
    assert expenses[..k] == expenses;
    ExpenseCategories(transactions);
  }

  /** The categories met among all the expenses are those of the expense transactions. */
  lemma ExpenseCategories(transactions: seq<Transaction>)
    ensures forall c :: c in CategoriesAmong(Expenses(transactions), |Expenses(transactions)|) <==>
      exists t :: t in transactions && IsExpense(t) && t.category == c
  {
    var expenses := Expenses(transactions);
    forall c ensures c in CategoriesAmong(expenses, |expenses|) <==> exists t :: t in transactions && IsExpense(t) && t.category == c {
      if c in CategoriesAmong(expenses, |expenses|) {
        var j :| 0 <= j < |expenses| && expenses[j].category == c;
        Seqs.FilterMember(transactions, IsExpense, expenses[j]);
      } else {
        forall t | t in transactions && IsExpense(t) ensures t.category != c {
          Seqs.FilterMember(transactions, IsExpense, t);
        }
      }
    }
  }

  /** One bar: a category and its total. */
  datatype Entry = Entry(category: string, amount: real)

  /** The sort key of `b.amount - a.amount`: the largest amount first. */
  function Largest(e: Entry): real {
    -e.amount
  }

  /** `chartData`: the entries sorted largest first, then `slice(0, 6)`. */
  function TopCategories(entries: seq<Entry>): seq<Entry> {
    var sorted := Seqs.SortBy(entries, Largest);
    sorted[..if |sorted| < 6 then |sorted| else 6]
  }

  /** The chart draws at most six bars, all of them when there are six or fewer, largest first. */
  lemma TopCategoriesOrder(entries: seq<Entry>)
    ensures |TopCategories(entries)| == if |entries| < 6 then |entries| else 6
    ensures forall i, j :: 0 <= i < j < |TopCategories(entries)| ==>
      TopCategories(entries)[i].amount >= TopCategories(entries)[j].amount
  {
    var sorted := Seqs.SortBy(entries, Largest);
    var top := TopCategories(entries);
    forall i, j | 0 <= i < j < |top| ensures top[i].amount >= top[j].amount {
      assert top[i] == sorted[i] && top[j] == sorted[j];
      assert Largest(sorted[i]) <= Largest(sorted[j]);
    }
  }

  /**
   * Each bar is an entry of the record, and every entry left out is no larger than any bar
   * drawn: the chart shows the largest categories.
   */
  lemma TopCategoriesLargest(entries: seq<Entry>)
    ensures multiset(TopCategories(entries)) <= multiset(entries)
    ensures forall e, x :: e in multiset(entries) - multiset(TopCategories(entries)) && x in TopCategories(entries) ==>
      e.amount <= x.amount
  {
    var sorted := Seqs.SortBy(entries, Largest);
    var m := if |sorted| < 6 then |sorted| else 6;
    assert sorted == sorted[..m] + sorted[m..];
    assert multiset(entries) - multiset(sorted[..m]) == multiset(sorted[m..]);
    PrefixLargest(sorted, m);
  }

  /** In a list sorted largest first, nothing after position `m` is larger than anything before. */
  lemma PrefixLargest(sorted: seq<Entry>, m: nat)
    requires Seqs.SortedBy(sorted, Largest) && m <= |sorted|
    ensures forall e, x :: e in sorted[m..] && x in sorted[..m] ==> e.amount <= x.amount
  {
    forall e, x | e in sorted[m..] && x in sorted[..m] ensures e.amount <= x.amount {
      var j :| 0 <= j < |sorted| - m && sorted[m..][j] == e;
      var i :| 0 <= i < m && sorted[..m][i] == x;
      assert Largest(sorted[i]) <= Largest(sorted[m + j]);
    }
  }

  /** `Object.entries(categoryData).map(...)`: one entry per key, in the record's key order. */
  function Entries(totals: map<string, real>, order: seq<string>): seq<Entry>
    requires forall c :: c in order ==> c in totals
  {
    seq(|order|, i requires 0 <= i < |order| => Entry(order[i], totals[order[i]]))
  }

  /**
   * The whole chart from the transactions: the bars are distinct expense categories, each
   * with its total, largest first; a category left out totals no more than any bar; and
   * fewer than six bars means every expense category is drawn.
   */
  method ChartData(transactions: seq<Transaction>) returns (bars: seq<Entry>)
    ensures |bars| <= 6
    ensures forall i, j :: 0 <= i < j < |bars| ==> bars[i].amount >= bars[j].amount
    ensures forall i, j :: 0 <= i < j < |bars| ==> bars[i].category != bars[j].category
    ensures forall b :: b in bars ==>
      && b.amount == CategorySum(Expenses(transactions), b.category)
      && exists t :: t in transactions && IsExpense(t) && t.category == b.category
    ensures forall t :: t in transactions && IsExpense(t) && !Shown(bars, t.category) ==>
      forall b :: b in bars ==> CategorySum(Expenses(transactions), t.category) <= b.amount
    ensures |bars| < 6 ==> forall t :: t in transactions && IsExpense(t) ==> Shown(bars, t.category)
  {
    var totals, order := CategoryTotals(transactions);
    var entries := Entries(totals, order);
    bars := TopCategories(entries);
    TopCategoriesOrder(entries);
    TopCategoriesLargest(entries);
    EntriesDistinct(totals, order);
    SubDistinct(bars, entries);
    BarsAreTotals(transactions, totals, order, bars);
    LeftOutSmaller(transactions, totals, order, bars);
  }

  /** Each bar is one of the record's entries: an expense category with its total. */
  lemma BarsAreTotals(transactions: seq<Transaction>, totals: map<string, real>, order: seq<string>, bars: seq<Entry>)
    requires forall c :: c in order <==> c in totals
    requires forall c :: c in totals <==> exists t :: t in transactions && IsExpense(t) && t.category == c
    requires forall c :: c in totals ==> totals[c] == CategorySum(Expenses(transactions), c)
    requires multiset(bars) <= multiset(Entries(totals, order))
    ensures forall b :: b in bars ==>
      && b.amount == CategorySum(Expenses(transactions), b.category)
      && exists t :: t in transactions && IsExpense(t) && t.category == b.category
  {
    forall b | b in bars
      ensures b.amount == CategorySum(Expenses(transactions), b.category)
      ensures exists t :: t in transactions && IsExpense(t) && t.category == b.category
    {
      var entries := Entries(totals, order);
      assert b in multiset(entries);
      var k :| 0 <= k < |entries| && entries[k] == b;
      assert b.category == order[k] && b.category in totals;
    }
  }

  /**
   * An expense category without a bar totals no more than any bar, and fewer than six bars
   * leave no expense category out.
   */
  lemma LeftOutSmaller(transactions: seq<Transaction>, totals: map<string, real>, order: seq<string>, bars: seq<Entry>)
    requires forall c :: c in order <==> c in totals
    requires forall c :: c in totals <==> exists t :: t in transactions && IsExpense(t) && t.category == c
    requires forall c :: c in totals ==> totals[c] == CategorySum(Expenses(transactions), c)
    requires bars == TopCategories(Entries(totals, order))
    requires multiset(bars) <= multiset(Entries(totals, order))
    requires forall e, x :: e in multiset(Entries(totals, order)) - multiset(bars) && x in bars ==> e.amount <= x.amount
    requires |bars| == if |order| < 6 then |order| else 6
    ensures forall t :: t in transactions && IsExpense(t) && !Shown(bars, t.category) ==>
      forall b :: b in bars ==> CategorySum(Expenses(transactions), t.category) <= b.amount
    ensures |bars| < 6 ==> forall t :: t in transactions && IsExpense(t) ==> Shown(bars, t.category)
  {
    var entries := Entries(totals, order);
    forall t | t in transactions && IsExpense(t)
      ensures !Shown(bars, t.category) ==>
        forall b :: b in bars ==> CategorySum(Expenses(transactions), t.category) <= b.amount
      ensures |bars| < 6 ==> Shown(bars, t.category)
    {
      assert t.category in totals;
      var k :| 0 <= k < |order| && order[k] == t.category;
      var e := entries[k];
      assert e in multiset(entries);
      if !Shown(bars, t.category) {
        assert e !in multiset(bars);
      }
      if |bars| < 6 {
        AllKept(bars, entries);
        assert e in bars;
      }
    }
  }

  /** Some bar is drawn for category `c`. */
  predicate Shown(bars: seq<Entry>, c: string) {
    exists b :: b in bars && b.category == c
  }

  /** The entries of a record have distinct categories, since its keys are distinct. */
  lemma EntriesDistinct(totals: map<string, real>, order: seq<string>)
    requires forall c :: c in order ==> c in totals
    requires forall i, j :: 0 <= i < j < |order| ==> order[i] != order[j]
    ensures forall e, f :: e in Entries(totals, order) && f in Entries(totals, order) && e.category == f.category ==> e == f
    ensures forall e :: e in Entries(totals, order) ==> multiset(Entries(totals, order))[e] == 1
  {
    var entries := Entries(totals, order);
    forall e | e in entries ensures multiset(entries)[e] == 1 {
      var k :| 0 <= k < |entries| && entries[k] == e;
      assert entries == entries[..k] + [e] + entries[k + 1..];
      assert e !in entries[..k] by {
        forall i | 0 <= i < k ensures entries[..k][i] != e { assert entries[i].category == order[i]; }
      }
      assert e !in entries[k + 1..] by {
        forall i | k + 1 <= i < |entries| ensures entries[i] != e { assert entries[i].category == order[i]; }
      }
      assert multiset(entries) == multiset(entries[..k]) + multiset{e} + multiset(entries[k + 1..]);
    }
  }

  /** A sub-multiset of entries with distinct categories has distinct categories itself. */
  lemma SubDistinct(bars: seq<Entry>, entries: seq<Entry>)
    requires multiset(bars) <= multiset(entries)
    requires forall e, f :: e in entries && f in entries && e.category == f.category ==> e == f
    requires forall e :: e in entries ==> multiset(entries)[e] == 1
    ensures forall i, j :: 0 <= i < j < |bars| ==> bars[i].category != bars[j].category
  {
    forall i, j | 0 <= i < j < |bars| ensures bars[i].category != bars[j].category {
      assert bars[i] in multiset(entries) && bars[j] in multiset(entries);
      assert bars == bars[..j] + [bars[j]] + bars[j + 1..];
      assert bars[i] in bars[..j];
      assert multiset(bars)[bars[i]] >= multiset(bars[..j])[bars[i]] + multiset{bars[j]}[bars[i]];
    }
  }

  /** A sub-multiset as long as the whole is the whole. */
  lemma AllKept(bars: seq<Entry>, entries: seq<Entry>)
    requires multiset(bars) <= multiset(entries) && |bars| == |entries|
    ensures forall e :: e in entries ==> e in bars
  {
    assert |multiset(bars)| == |multiset(entries)|;
    var rest := multiset(entries) - multiset(bars);
    assert multiset(entries) == multiset(bars) + rest;
    assert |rest| == 0;
    forall e | e in entries ensures e in bars {
      assert e in multiset(entries);
    }
  }
}
