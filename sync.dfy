/**
 * The merge policy of the cloud sync: `mergeArrays`, an id-keyed union built in a JavaScript
 * `Map` (cloud entries first, local entries overwriting them), and the decision in
 * `syncData` between taking the cloud document and merging every array into the local one.
 * The fetched row and both timestamps are parameters; the network calls are not modelled.
 */
module Sync {
  import opened Wrappers
  import opened Types
  import Seqs
  import Ids
  import Storage

  /* ---------- mergeArrays ---------- */

  ghost predicate Distinct(s: seq<string>) {
    forall i, j :: 0 <= i < j < |s| ==> s[i] != s[j]
  }

  /** The keys of a `Map` after `set` was called with `ks` in turn: first insertions, in order. */
  function Dedup(ks: seq<string>): seq<string> {
    if ks == [] then []
    else
      var p := Dedup(ks[..|ks| - 1]);
      var k := ks[|ks| - 1];
      if k in p then p else p + [k]
  }

  /** A key is among the map's keys exactly when it was set. */
  lemma {:induction false} DedupMember(ks: seq<string>, k: string)
    ensures k in Dedup(ks) <==> k in ks
  {
    if ks != [] {
      var init := ks[..|ks| - 1];
      DedupMember(init, k);
      assert ks == init + [ks[|ks| - 1]];
    }
  }

  /** The map's keys are the keys that were set, each once. */
  lemma {:induction false} DedupMembers(ks: seq<string>)
    ensures forall k :: k in Dedup(ks) <==> k in ks
    ensures Distinct(Dedup(ks))
  {
    forall k ensures k in Dedup(ks) <==> k in ks {
      DedupMember(ks, k);
    }
    if ks != [] {
      var init := ks[..|ks| - 1];
      DedupMembers(init);
    }
  }

  /** Setting one more key: a new key goes last, a known key keeps its place. */
  lemma DedupSnoc(ks: seq<string>, k: string)
    ensures Dedup(ks + [k]) == if k in Dedup(ks) then Dedup(ks) else Dedup(ks) + [k]
  {
    assert (ks + [k])[..|ks|] == ks;
  }

  /** The record a `Map` holds for `k` after every record of `s` was set: the last one with that id. */
  function LastWithId<T>(s: seq<T>, key: T -> string, k: string): (r: Option<T>)
    ensures r.Some? ==> key(r.value) == k
  {
    if s == [] then None
    else if key(s[|s| - 1]) == k then Some(s[|s| - 1])
    else LastWithId(s[..|s| - 1], key, k)
  }

  /** A map filled from `s` holds an entry for exactly the ids of `s`. */
  lemma {:induction false} LastWithIdPresent<T>(s: seq<T>, key: T -> string, k: string)
    ensures LastWithId(s, key, k).Some? <==> k in Ids.Keys(s, key)
  {
    if s != [] {
      LastWithIdPresent(s[..|s| - 1], key, k);
    }
  }

  /** Setting the records of `b` after those of `a`: an id of `b` takes `b`'s record, any other keeps `a`'s. */
  lemma {:induction false} LastAppend<T>(a: seq<T>, b: seq<T>, key: T -> string, k: string)
    ensures LastWithId(a + b, key, k) ==
      if LastWithId(b, key, k).Some? then LastWithId(b, key, k) else LastWithId(a, key, k)
  {
    if b == [] {
      assert a + b == a;
    } else {
      assert (a + b)[..|a + b| - 1] == a + b[..|b| - 1];
      LastAppend(a, b[..|b| - 1], key, k);
    }
  }

  /** `ks.map((k) => merged.get(k))` for a map filled from `s`. */
  function ValuesOf<T>(ks: seq<string>, s: seq<T>, key: T -> string): (r: seq<T>)
    requires forall i | 0 <= i < |ks| :: LastWithId(s, key, ks[i]).Some?
    ensures |r| == |ks|
    ensures forall i | 0 <= i < |ks| :: Some(r[i]) == LastWithId(s, key, ks[i])
  {
    if ks == [] then []
    else ValuesOf(ks[..|ks| - 1], s, key) + [LastWithId(s, key, ks[|ks| - 1]).value]
  }

  /** The ids of the values are the keys asked for. */
  lemma {:induction false} KeysOfValues<T>(ks: seq<string>, s: seq<T>, key: T -> string)
    requires forall i | 0 <= i < |ks| :: LastWithId(s, key, ks[i]).Some?
    ensures Ids.Keys(ValuesOf(ks, s, key), key) == ks
  {
    var r := ValuesOf(ks, s, key);
    var rk := Ids.Keys(r, key);
    forall i | 0 <= i < |ks| ensures rk[i] == ks[i] {
      assert Some(r[i]) == LastWithId(s, key, ks[i]);
    }
  }

  /** Every key of a map filled from `s` has an entry. */
  lemma AllPresent<T>(s: seq<T>, key: T -> string)
    ensures forall i | 0 <= i < |Dedup(Ids.Keys(s, key))| :: LastWithId(s, key, Dedup(Ids.Keys(s, key))[i]).Some?
  {
    var ks := Dedup(Ids.Keys(s, key));
    DedupMembers(Ids.Keys(s, key));
    forall i | 0 <= i < |ks| ensures LastWithId(s, key, ks[i]).Some? {
      assert ks[i] in ks;
      LastWithIdPresent(s, key, ks[i]);
    }
  }

  /** The values of a map filled from `s`, in insertion order. */
  function Collapse<T>(s: seq<T>, key: T -> string): seq<T> {
    AllPresent(s, key);
    ValuesOf(Dedup(Ids.Keys(s, key)), s, key)
  }

  /** `mergeArrays(local, cloud)` as a value: the specification of the method below. */
  function Merge<T>(local: seq<T>, cloud: seq<T>, key: T -> string): seq<T> {
    Collapse(cloud + local, key)
  }

  /** A `Map` holding the records `s`, set in turn: its keys in insertion order and its entries. */
  ghost predicate Holds<T>(entries: map<string, T>, order: seq<string>, s: seq<T>, key: T -> string) {
    && order == Dedup(Ids.Keys(s, key))
    && (forall k :: k in entries <==> k in order)
    && (forall k | k in entries :: LastWithId(s, key, k) == Some(entries[k]))
  }

  /** Setting one more record: the map's entry for its id becomes that record, the others stay. */
  lemma LastSnoc<T>(s: seq<T>, x: T, key: T -> string, k: string)
    ensures LastWithId(s + [x], key, k) == if key(x) == k then Some(x) else LastWithId(s, key, k)
  {
    assert (s + [x])[..|s|] == s;
  }

  /** Adding one record adds its id at the end. */
  lemma KeysSnoc<T>(s: seq<T>, x: T, key: T -> string)
    ensures Ids.Keys(s + [x], key) == Ids.Keys(s, key) + [key(x)]
  {
  }

  /** `merged.set(item.id, item)` keeps the map in step with the records set so far. */
  lemma SetStep<T>(entries: map<string, T>, order: seq<string>, s: seq<T>, x: T, key: T -> string)
    requires Holds(entries, order, s, key)
    ensures Holds(entries[key(x) := x], if key(x) in entries then order else order + [key(x)], s + [x], key)
  {
    KeysSnoc(s, x, key);
    DedupSnoc(Ids.Keys(s, key), key(x));
    var e := entries[key(x) := x];
    forall k | k in e
      ensures LastWithId(s + [x], key, k) == Some(e[k])
    {
      LastSnoc(s, x, key, k);
    }
  }

  /** `items.forEach((item) => merged.set(item.id, item))`. */
  method SetEach<T>(entries: map<string, T>, order: seq<string>, items: seq<T>, key: T -> string, ghost done: seq<T>)
    returns (entries': map<string, T>, order': seq<string>)
    requires Holds(entries, order, done, key)
    ensures Holds(entries', order', done + items, key)
  {
    entries', order' := entries, order;
    var i := 0;
    assert done + items[..i] == done;
    while i < |items|
      invariant 0 <= i <= |items|
      invariant Holds(entries', order', done + items[..i], key)
    {
      SetStep(entries', order', done + items[..i], items[i], key);
      PrefixStep(done, items, i);
      if key(items[i]) !in entries' {
        order' := order' + [key(items[i])];
      }
      entries' := entries'[key(items[i]) := items[i]];
      i := i + 1;
    }
    assert items[..i] == items;
  }

  lemma PrefixStep<T>(done: seq<T>, items: seq<T>, i: int)
    requires 0 <= i < |items|
    ensures done + items[..i + 1] == (done + items[..i]) + [items[i]]
  {
    assert items[..i + 1] == items[..i] + [items[i]];
  }

  /** `Array.from(merged.values())`: the entries in the order their keys were first set. */
  method ValuesInOrder<T>(entries: map<string, T>, order: seq<string>) returns (values: seq<T>)
    requires forall i | 0 <= i < |order| :: order[i] in entries
    ensures |values| == |order|
    ensures forall i | 0 <= i < |order| :: values[i] == entries[order[i]]
  {
    values := [];
    var n := 0;
    while n < |order|
      invariant 0 <= n <= |order|
      invariant |values| == n
      invariant forall i | 0 <= i < n :: values[i] == entries[order[i]]
    {
      values := values + [entries[order[n]]];
      n := n + 1;
    }
  }

  /** A map filled from `s` lists exactly `Collapse(s)`. */
  lemma HoldsCollapse<T>(entries: map<string, T>, order: seq<string>, s: seq<T>, key: T -> string, values: seq<T>)
    requires Holds(entries, order, s, key)
    requires |values| == |order|
    requires forall i | 0 <= i < |order| :: order[i] in entries && values[i] == entries[order[i]]
    ensures values == Collapse(s, key)
  {
    var c := Collapse(s, key);
    forall i | 0 <= i < |order| ensures values[i] == c[i] {
    }
  }

  /**
   * `mergeArrays`: fills a map from the cloud records, then from the local ones, and lists
   * its values in insertion order (a key set again keeps its first position).
   */
  method MergeArrays<T>(local: seq<T>, cloud: seq<T>, key: T -> string) returns (merged: seq<T>)
    ensures merged == Merge(local, cloud, key)
  {
    assert [] + cloud == cloud;
    var entries, order := SetEach(map[], [], cloud, key, []);
    entries, order := SetEach(entries, order, local, key, cloud);
    merged := ValuesInOrder(entries, order);
    HoldsCollapse(entries, order, cloud + local, key, merged);
  }

  /* ---------- properties of the merge ---------- */

  /** `(k) => !a.includes(k)`. */
  function NotIn(a: seq<string>): string -> bool {
    k => k !in a
  }

  /** Deduplicating a concatenation: the first part's keys, then the new keys of the second part. */
  lemma {:induction false} DedupAppend(a: seq<string>, b: seq<string>)
    ensures Dedup(a + b) == Dedup(a) + Dedup(Seqs.Filter(b, NotIn(a)))
  {
    if b == [] {
      assert a + b == a;
      assert Seqs.Filter(b, NotIn(a)) == [];
      assert Dedup(a) + [] == Dedup(a);
    } else {
      var b', x := b[..|b| - 1], b[|b| - 1];
      DedupAppend(a, b');
      assert b == b' + [x];
      DedupAppendStep(a, b', x);
    }
  }

  /** The inductive step of `DedupAppend`: one more key at the end of the second part. */
  lemma DedupAppendStep(a: seq<string>, b: seq<string>, x: string)
    requires Dedup(a + b) == Dedup(a) + Dedup(Seqs.Filter(b, NotIn(a)))
    ensures Dedup(a + (b + [x])) == Dedup(a) + Dedup(Seqs.Filter(b + [x], NotIn(a)))
  {
    assert a + (b + [x]) == (a + b) + [x];
    DedupSnoc(a + b, x);
    FilterSnoc(b, x, NotIn(a));
    if x in a {
      DedupMember(a + b, x);
    } else {
      DedupNewKey(a, b, x);
    }
  }

  /** `filter` on one more element. */
  lemma FilterSnoc<T>(s: seq<T>, x: T, p: T -> bool)
    ensures Seqs.Filter(s + [x], p) == if p(x) then Seqs.Filter(s, p) + [x] else Seqs.Filter(s, p)
  {
    assert (s + [x])[..|s|] == s;
  }

  /** A key outside `a` at the end of `b` is new to `a + b` exactly when it is new to `b`'s filtered keys. */
  lemma DedupNewKey(a: seq<string>, b: seq<string>, x: string)
    requires x !in a
    requires Dedup(a + b) == Dedup(a) + Dedup(Seqs.Filter(b, NotIn(a)))
    ensures Dedup((a + b) + [x]) == Dedup(a) + Dedup(Seqs.Filter(b, NotIn(a)) + [x])
  {
    var f := Seqs.Filter(b, NotIn(a));
    DedupSnoc(a + b, x);
    DedupSnoc(f, x);
    DedupMember(a + b, x);
    DedupMember(f, x);
    Seqs.FilterMember(b, NotIn(a), x);
    assert NotIn(a)(x);
    if x in b {
      assert x in a + b;
    } else {
      assert x !in a + b;
      assert Dedup(a) + (Dedup(f) + [x]) == (Dedup(a) + Dedup(f)) + [x];
    }
  }

  /** Deduplicating ids that are already distinct changes nothing. */
  lemma {:induction false} DedupDistinct(ks: seq<string>)
    requires Distinct(ks)
    ensures Dedup(ks) == ks
  {
    if ks != [] {
      var p := ks[..|ks| - 1];
      DedupDistinct(p);
      assert ks[|ks| - 1] !in p;
      assert ks == p + [ks[|ks| - 1]];
    }
  }

  /** The ids of a concatenation. */
  lemma KeysAppend<T>(a: seq<T>, b: seq<T>, key: T -> string)
    ensures Ids.Keys(a + b, key) == Ids.Keys(a, key) + Ids.Keys(b, key)
  {
  }

  /**
   * The merged ids are exactly the union of both sides' ids, each once, in the order
   * "cloud ids in cloud order, then ids only the local side has, in local order" — so an
   * id present on both sides keeps its cloud position.
   */
  lemma MergeIds<T>(local: seq<T>, cloud: seq<T>, key: T -> string)
    ensures forall k :: k in Ids.Keys(Merge(local, cloud, key), key) <==>
      k in Ids.Keys(local, key) || k in Ids.Keys(cloud, key)
    ensures Ids.UniqueKeys(Merge(local, cloud, key), key)
    ensures Ids.Keys(Merge(local, cloud, key), key) ==
      Dedup(Ids.Keys(cloud, key)) + Dedup(Seqs.Filter(Ids.Keys(local, key), NotIn(Ids.Keys(cloud, key))))
  {
    var s := cloud + local;
    var ks := Dedup(Ids.Keys(s, key));
    AllPresent(s, key);
    KeysOfValues(ks, s, key);
    KeysAppend(cloud, local, key);
    DedupMembers(Ids.Keys(s, key));
    DedupAppend(Ids.Keys(cloud, key), Ids.Keys(local, key));
    var r := Merge(local, cloud, key);
    forall i, j | 0 <= i < j < |r| ensures key(r[i]) != key(r[j]) {
      assert Ids.Keys(r, key)[i] == ks[i] && Ids.Keys(r, key)[j] == ks[j];
    }
  }

  /**
   * On an id collision the merged record is the local one (the last local record with that
   * id); an id only the cloud has keeps the (last) cloud record.
   */
  lemma MergeValues<T>(local: seq<T>, cloud: seq<T>, key: T -> string)
    ensures forall i | 0 <= i < |Merge(local, cloud, key)| ::
      var x := Merge(local, cloud, key)[i];
      (key(x) in Ids.Keys(local, key) ==> Some(x) == LastWithId(local, key, key(x))) &&
      (key(x) !in Ids.Keys(local, key) ==> Some(x) == LastWithId(cloud, key, key(x)))
  {
    var s := cloud + local;
    var r := Merge(local, cloud, key);
    AllPresent(s, key);
    var ks := Dedup(Ids.Keys(s, key));
    forall i | 0 <= i < |r|
      ensures (key(r[i]) in Ids.Keys(local, key) ==> Some(r[i]) == LastWithId(local, key, key(r[i]))) &&
        (key(r[i]) !in Ids.Keys(local, key) ==> Some(r[i]) == LastWithId(cloud, key, key(r[i])))
    {
      assert Some(r[i]) == LastWithId(s, key, ks[i]);
      LastAppend(cloud, local, key, ks[i]);
      LastWithIdPresent(local, key, ks[i]);
    }
  }

  /** In an array with unique ids, the last record with a record's id is that record. */
  lemma {:induction false} LastOfUnique<T>(s: seq<T>, key: T -> string, i: int)
    requires Ids.UniqueKeys(s, key) && 0 <= i < |s|
    ensures LastWithId(s, key, key(s[i])) == Some(s[i])
  {
    if i < |s| - 1 {
      var p := s[..|s| - 1];
      assert p[i] == s[i];
      LastOfUnique(p, key, i);
    }
  }

  /** Setting distinct keys twice over leaves them in their first order. */
  lemma DedupTwice(ks: seq<string>)
    requires Distinct(ks)
    ensures Dedup(ks + ks) == ks
  {
    DedupAppend(ks, ks);
    assert Seqs.Filter(ks, NotIn(ks)) == [] by {
      forall i | 0 <= i < |ks| ensures !NotIn(ks)(ks[i]) { }
    }
    DedupDistinct(ks);
    assert Dedup([]) == [];
    assert ks + [] == ks;
  }

  /** Merging an array with unique ids with itself gives the same array back. */
  lemma {:induction false} MergeSelf<T>(s: seq<T>, key: T -> string)
    requires Ids.UniqueKeys(s, key)
    ensures Merge(s, s, key) == s
  {
    var ks := Ids.Keys(s, key);
    KeysAppend(s, s, key);
    assert Distinct(ks) by {
      forall i, j | 0 <= i < j < |ks| ensures ks[i] != ks[j] { }
    }
    DedupTwice(ks);
    var r := Merge(s, s, key);
    AllPresent(s + s, key);
    forall i | 0 <= i < |s| ensures r[i] == s[i] {
      LastOfUnique(s, key, i);
      LastAppend(s, s, key, key(s[i]));
    }
  }

  /* ---------- syncData's decision ---------- */

  /**
   * A time read by `syncData`: absent (null or empty, read as 0), a number of milliseconds,
   * or text that parses to NaN (an invalid `updated_at` date, a last-updated entry that is
   * not a number).
   */
  datatype TimeStamp = Missing | At(ms: int) | NotANumber

  /** The fetched row: its document and `updated_at`, the document possibly null. */
  datatype CloudRow = CloudRow(data: Option<FinancialData>, updatedAt: TimeStamp)

  /** The answer to the fetch: an error code, if any, and the row, if any. */
  datatype FetchResult = FetchResult(error: Option<string>, row: Option<CloudRow>)

  /** What the sync does: upload the local document as it is, or save a new one locally and upload it. */
  datatype SyncPlan = UploadLocal(local: FinancialData) | SaveAndUpload(merged: FinancialData)

  /** The number a time stands for; None is NaN. */
  function StampValue(t: TimeStamp): Option<int> {
    match t
    case Missing => Some(0)
    case At(ms) => Some(ms)
    case NotANumber => None
  }

  /** `cloudUpdated > localUpdated`: a comparison with NaN is false. */
  predicate CloudIsNewer(cloudUpdated: TimeStamp, localUpdated: TimeStamp) {
    StampValue(cloudUpdated).Some? && StampValue(localUpdated).Some? &&
    StampValue(cloudUpdated).value > StampValue(localUpdated).value
  }

  /** "Not found" is the one fetch error that does not stop the sync. */
  const NotFound := "PGRST116"

  /** The local document with each of the eleven arrays merged with the cloud's. */
  function MergeDocuments(local: FinancialData, cloud: FinancialData): FinancialData {
    local.(
      transactions := Merge(local.transactions, cloud.transactions, Storage.TransactionId),
      budgets := Merge(local.budgets, cloud.budgets, Storage.BudgetId),
      debts := Merge(local.debts, cloud.debts, Storage.DebtId),
      savingsGoals := Merge(local.savingsGoals, cloud.savingsGoals, Storage.SavingsGoalId),
      accounts := Merge(local.accounts, cloud.accounts, Storage.AccountId),
      assets := Merge(local.assets, cloud.assets, Storage.AssetId),
      liabilities := Merge(local.liabilities, cloud.liabilities, Storage.LiabilityId),
      loansGiven := Merge(local.loansGiven, cloud.loansGiven, Storage.LoanGivenId),
      bills := Merge(local.bills, cloud.bills, Storage.BillId),
      habits := Merge(local.habits, cloud.habits, Storage.HabitId),
      wishlist := Merge(local.wishlist, cloud.wishlist, Storage.WishlistItemId))
  }

  /**
   * The decision block of `syncData`: any fetch error other than "not found" and a missing
   * row or document upload the local document; a cloud document strictly newer than the
   * last local update replaces the local one except for the currency; otherwise the arrays
   * are merged into the local document.
   */
  function Plan(local: FinancialData, fetch: FetchResult, localUpdated: TimeStamp): (r: SyncPlan)
    ensures r.UploadLocal? ==> r.local == local
    ensures r.SaveAndUpload? <==>
      (fetch.error.None? || fetch.error.value == NotFound) && fetch.row.Some? && fetch.row.value.data.Some?
  {
    if fetch.error.Some? && fetch.error.value != NotFound then UploadLocal(local)
    else
      match fetch.row
      case None => UploadLocal(local)
      case Some(row) =>
        match row.data
        case None => UploadLocal(local)
        case Some(cloud) =>
          if CloudIsNewer(row.updatedAt, localUpdated) then SaveAndUpload(cloud.(currency := local.currency))
          else SaveAndUpload(MergeDocuments(local, cloud))
  }

  /**
   * The decision table: a strictly newer cloud document replaces the local one except for the
   * local currency; on a tie, an older cloud or an unreadable time the local document is kept
   * with every array merged, so the local monthly income and currency survive. A missing time
   * counts as 0 (see `NewerRule`).
   */
  lemma PlanDecision(local: FinancialData, cloud: FinancialData, cloudUpdated: TimeStamp, localUpdated: TimeStamp)
    ensures var r := Plan(local, FetchResult(None, Some(CloudRow(Some(cloud), cloudUpdated))), localUpdated);
      && r.SaveAndUpload?
      && (CloudIsNewer(cloudUpdated, localUpdated) ==> r.merged == cloud.(currency := local.currency))
      && (!CloudIsNewer(cloudUpdated, localUpdated) ==>
            r.merged == MergeDocuments(local, cloud) &&
            r.merged.monthlyIncome == local.monthlyIncome && r.merged.currency == local.currency)
  {
  }

  /**
   * The comparison of the two update times: a tie is not newer, a time that is not a number
   * is never newer nor older, and a missing time compares as 0.
   */
  lemma NewerRule(cloudUpdated: TimeStamp, localUpdated: TimeStamp)
    ensures cloudUpdated == localUpdated ==> !CloudIsNewer(cloudUpdated, localUpdated)
    ensures cloudUpdated == NotANumber || localUpdated == NotANumber ==>
      !CloudIsNewer(cloudUpdated, localUpdated) && !CloudIsNewer(localUpdated, cloudUpdated)
    ensures CloudIsNewer(Missing, localUpdated) == CloudIsNewer(At(0), localUpdated)
    ensures CloudIsNewer(cloudUpdated, Missing) == CloudIsNewer(cloudUpdated, At(0))
  {
  }

  /** Merging a document with itself changes nothing when every array has unique ids. */
  lemma MergeDocumentsSelf(d: FinancialData)
    requires Ids.UniqueKeys(d.transactions, Storage.TransactionId) && Ids.UniqueKeys(d.budgets, Storage.BudgetId)
    requires Ids.UniqueKeys(d.debts, Storage.DebtId) && Ids.UniqueKeys(d.savingsGoals, Storage.SavingsGoalId)
    requires Ids.UniqueKeys(d.accounts, Storage.AccountId) && Ids.UniqueKeys(d.assets, Storage.AssetId)
    requires Ids.UniqueKeys(d.liabilities, Storage.LiabilityId) && Ids.UniqueKeys(d.loansGiven, Storage.LoanGivenId)
    requires Ids.UniqueKeys(d.bills, Storage.BillId) && Ids.UniqueKeys(d.habits, Storage.HabitId)
    requires Ids.UniqueKeys(d.wishlist, Storage.WishlistItemId)
    ensures MergeDocuments(d, d) == d
  {
    MergeSelf(d.transactions, Storage.TransactionId);
    MergeSelf(d.budgets, Storage.BudgetId);
    MergeSelf(d.debts, Storage.DebtId);
    MergeSelf(d.savingsGoals, Storage.SavingsGoalId);
    MergeSelf(d.accounts, Storage.AccountId);
    MergeSelf(d.assets, Storage.AssetId);
    MergeSelf(d.liabilities, Storage.LiabilityId);
    MergeSelf(d.loansGiven, Storage.LoanGivenId);
    MergeSelf(d.bills, Storage.BillId);
    MergeSelf(d.habits, Storage.HabitId);
    MergeSelf(d.wishlist, Storage.WishlistItemId);
  }

  /**
   * The local part of `syncData`: read the local document, decide, and when a cloud document
   * was found save the result locally (each array merged by `mergeArrays`). The uploads are
   * not modelled; the returned plan says which document is uploaded.
   */
  method SyncData(store: Storage.Store, fetch: FetchResult, localUpdated: TimeStamp, now: int)
    returns (plan: SyncPlan)
    modifies store
    ensures plan == Plan(old(store.Loaded(now)), fetch, localUpdated)
    ensures store.storage == if plan.SaveAndUpload? then old(store.Saved(plan.merged)) else old(store.Seeded(now))
  {
    ghost var planned := Plan(store.Loaded(now), fetch, localUpdated);
    Storage.SaveAfterSeed(store.available, store.storage, now, store.defaults, if planned.SaveAndUpload? then planned.merged else planned.local);
    var localData := store.GetFinancialData(now);
    if (fetch.error.Some? && fetch.error.value != NotFound) || fetch.row.None? || fetch.row.value.data.None? {
      return UploadLocal(localData);
    }
    var row := fetch.row.value;
    var cloud := row.data.value;
    var mergedData: FinancialData;
    if CloudIsNewer(row.updatedAt, localUpdated) {
      mergedData := cloud.(currency := localData.currency);
    } else {
      mergedData := MergeAll(localData, cloud);
    }
    store.SaveFinancialData(mergedData);
    plan := SaveAndUpload(mergedData);
  }

  /** The object literal of the merging branch: the local document with each array merged by `mergeArrays`. */
  method MergeAll(localData: FinancialData, cloud: FinancialData) returns (mergedData: FinancialData)
    ensures mergedData == MergeDocuments(localData, cloud)
  {
    var transactions := MergeArrays(localData.transactions, cloud.transactions, Storage.TransactionId);
    var budgets := MergeArrays(localData.budgets, cloud.budgets, Storage.BudgetId);
    var debts := MergeArrays(localData.debts, cloud.debts, Storage.DebtId);
    var savingsGoals := MergeArrays(localData.savingsGoals, cloud.savingsGoals, Storage.SavingsGoalId);
    var accounts := MergeArrays(localData.accounts, cloud.accounts, Storage.AccountId);
    var assets := MergeArrays(localData.assets, cloud.assets, Storage.AssetId);
    var liabilities := MergeArrays(localData.liabilities, cloud.liabilities, Storage.LiabilityId);
    var loansGiven := MergeArrays(localData.loansGiven, cloud.loansGiven, Storage.LoanGivenId);
    var bills := MergeArrays(localData.bills, cloud.bills, Storage.BillId);
    var habits := MergeArrays(localData.habits, cloud.habits, Storage.HabitId);
    var wishlist := MergeArrays(localData.wishlist, cloud.wishlist, Storage.WishlistItemId);
    mergedData := localData.(transactions := transactions, budgets := budgets, debts := debts,
      savingsGoals := savingsGoals, accounts := accounts, assets := assets,
      liabilities := liabilities, loansGiven := loansGiven, bills := bills, habits := habits,
      wishlist := wishlist);
  }
}
