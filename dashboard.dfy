/** components/Dashboard.tsx, the memoised aggregates behind the cards and charts:
    the total spent, the per-category sums, the five most recent expenses and the top
    category. Dates enter through `timeOf`, the parse `new Date(d).getTime()`. */
module Dashboard {
  import opened Types
  import opened ArrayOps

  /** `expenses.reduce((acc, curr) => acc + curr.amount, 0)`: added from the front. */
  function TotalSpent(expenses: seq<Expense>): real {
    if |expenses| == 0 then 0.0
    else TotalSpent(expenses[..|expenses| - 1]) + expenses[|expenses| - 1].amount
  }

  /** The total of a concatenation is the sum of the totals. */
  lemma {:induction false} TotalSpentAppend(a: seq<Expense>, b: seq<Expense>)
    ensures TotalSpent(a + b) == TotalSpent(a) + TotalSpent(b)
  {
    if |b| > 0 {
      var b' := b[..|b| - 1];
      assert (a + b)[..|a + b| - 1] == a + b';
      TotalSpentAppend(a, b');
    } else {
      assert a + b == a;
    }
  }

  /** Taking out the expense at `j` takes its amount out of the total. */
  lemma TotalSpentRemove(b: seq<Expense>, j: nat)
    requires j < |b|
    ensures TotalSpent(b) == TotalSpent(b[..j] + b[j + 1..]) + b[j].amount
  {
    var front, tail := b[..j + 1], b[j + 1..];
    assert b == front + tail;
    assert front[..j] == b[..j];
    TotalSpentAppend(front, tail);
    TotalSpentAppend(b[..j], tail);
  }

  /** The order of the expenses does not change the total. */
  lemma {:induction false} TotalSpentPermutation(a: seq<Expense>, b: seq<Expense>)
    requires multiset(a) == multiset(b)
    ensures TotalSpent(a) == TotalSpent(b)
    decreases |a|
  {
    if |a| > 0 {
      var n := |a| - 1;
      assert a[n] in multiset(a);
      var j := IndexOf(b, a[n]);
      var rest := b[..j] + b[j + 1..];
      RemoveBoth(a, n, b, j);
      assert a[..n] + a[n + 1..] == a[..n];
      TotalSpentPermutation(a[..n], rest);
      TotalSpentRemove(b, j);
    }
  }

  /** What the category's slot in `data` ends up holding: the amounts of its expenses,
      added in list order. */
  function CategorySum(expenses: seq<Expense>, category: string): real {
    if |expenses| == 0 then 0.0
    else
      var last := expenses[|expenses| - 1];
      CategorySum(expenses[..|expenses| - 1], category)
        + (if last.category == category then last.amount else 0.0)
  }

  /** The categories that occur in `expenses`. */
  function Categories(expenses: seq<Expense>): set<string> {
    set e | e in expenses :: e.category
  }

  /** One slice of the pie chart: `{ name, value }`. */
  datatype CategoryEntry = CategoryEntry(name: string, value: real)

  predicate Distinct<T(==)>(s: seq<T>) {
    forall i, j :: 0 <= i < j < |s| ==> s[i] != s[j]
  }

  function Names(entries: seq<CategoryEntry>): seq<string> {
    Map(entries, (e: CategoryEntry) => e.name)
  }

  /** The values added up from the front. */
  function SumValues(entries: seq<CategoryEntry>): real {
    if |entries| == 0 then 0.0
    else SumValues(entries[..|entries| - 1]) + entries[|entries| - 1].value
  }

  /** `Object.entries(data).map(([name, value]) => ({ name, value }))`, with the keys
      in the order they were first set. */
  function Entries(keys: seq<string>, data: map<string, real>): (r: seq<CategoryEntry>)
    requires forall k :: k in keys ==> k in data
    ensures |r| == |keys|
    ensures forall j :: 0 <= j < |keys| ==> r[j] == CategoryEntry(keys[j], data[keys[j]])
  {
    seq(|keys|, j requires 0 <= j < |keys| => CategoryEntry(keys[j], data[keys[j]]))
  }

  /** Setting a key outside `keys` leaves their entries alone. */
  lemma EntriesFrame(keys: seq<string>, data: map<string, real>, c: string, v: real)
    requires forall k :: k in keys ==> k in data
    requires c !in keys
    ensures Entries(keys, data[c := v]) == Entries(keys, data)
  {
  }

  /** A new key adds one entry at the end. */
  lemma EntriesAppend(keys: seq<string>, data: map<string, real>, c: string, v: real)
    requires forall k :: k in keys ==> k in data
    requires c !in keys
    ensures Entries(keys + [c], data[c := v]) == Entries(keys, data) + [CategoryEntry(c, v)]
    ensures SumValues(Entries(keys + [c], data[c := v])) == SumValues(Entries(keys, data)) + v
  {
    EntriesFrame(keys, data, c, v);
    var r := Entries(keys + [c], data[c := v]);
    assert r[..|r| - 1] == Entries(keys, data);
  }

  /** Changing the value of a key listed once moves the sum by the difference. */
  lemma {:induction false} SumValuesUpdate(keys: seq<string>, data: map<string, real>, c: string, v: real)
    requires forall k :: k in keys ==> k in data
    requires Distinct(keys) && c in keys
    ensures SumValues(Entries(keys, data[c := v])) == SumValues(Entries(keys, data)) - data[c] + v
  {
    var n := |keys|;
    var init, last := keys[..n - 1], keys[n - 1];
    var before, after := Entries(keys, data), Entries(keys, data[c := v]);
    assert before[..n - 1] == Entries(init, data);
    assert after[..n - 1] == Entries(init, data[c := v]);
    if last == c {
      assert c !in init by {
        forall j | 0 <= j < n - 1 ensures init[j] != c {
          assert keys[j] != keys[n - 1];
        }
      }
      EntriesFrame(init, data, c, v);
    } else {
      assert c in init by {
        var j :| 0 <= j < n && keys[j] == c;
        assert init[j] == c;
      }
      assert Distinct(init) by {
        forall i, j | 0 <= i < j < n - 1 ensures init[i] != init[j] {
          assert keys[i] != keys[j];
        }
      }
      SumValuesUpdate(init, data, c, v);
    }
  }

  /** `keys` lists the keys of `data` once each, in the order they were first set. */
  ghost predicate KeysOf(keys: seq<string>, data: map<string, real>) {
    Distinct(keys) && forall c :: c in keys <==> c in data
  }

  /** Each slot of `data` holds its category's sum so far, and absent categories sum to 0. */
  ghost predicate SumsSoFar(prefix: seq<Expense>, data: map<string, real>) {
    && data.Keys == Categories(prefix)
    && (forall c :: c in data ==> data[c] == CategorySum(prefix, c))
    && (forall c :: c !in data ==> CategorySum(prefix, c) == 0.0)
  }

  /** What `keys` (the order of first insertion) and `data` hold once the expenses
      `seen` have been visited: each category once, with the sum of its amounts. */
  ghost predicate Accumulated(seen: seq<Expense>, keys: seq<string>, data: map<string, real>) {
    && KeysOf(keys, data)
    && SumsSoFar(seen, data)
    && SumValues(Entries(keys, data)) == TotalSpent(seen)
  }

  /** The key bookkeeping of one step: a category not yet in `data` is appended. */
  lemma StepKeys(keys: seq<string>, data: map<string, real>, c: string, v: real)
    requires KeysOf(keys, data)
    ensures KeysOf(if c in data then keys else keys + [c], data[c := v])
  {
    if c !in data {
      var keys' := keys + [c];
      forall p, q | 0 <= p < q < |keys'| ensures keys'[p] != keys'[q] {
        if q == |keys| {
          assert keys'[p] == keys[p];
        }
      }
    }
  }

  /** The sums of one step: only the expense's own category grows, by its amount. */
  lemma StepSums(seen: seq<Expense>, e: Expense, data: map<string, real>)
    requires SumsSoFar(seen, data)
    ensures SumsSoFar(seen + [e], data[e.category := (if e.category in data then data[e.category] else 0.0) + e.amount])
  {
    var all := seen + [e];
    assert all[..|all| - 1] == seen;
    assert Categories(all) == Categories(seen) + {e.category};
  }

  /** The running total when the expense's category already has a slot. */
  lemma StepTotalKnown(seen: seq<Expense>, e: Expense, keys: seq<string>, data: map<string, real>)
    requires KeysOf(keys, data) && e.category in data
    requires SumValues(Entries(keys, data)) == TotalSpent(seen)
    ensures SumValues(Entries(keys, data[e.category := data[e.category] + e.amount])) == TotalSpent(seen + [e])
  {
    var all := seen + [e];
    assert all[..|all| - 1] == seen;
    SumValuesUpdate(keys, data, e.category, data[e.category] + e.amount);
  }

  /** The running total when the expense opens a new category. */
  lemma StepTotalNew(seen: seq<Expense>, e: Expense, keys: seq<string>, data: map<string, real>)
    requires KeysOf(keys, data) && e.category !in data
    requires SumValues(Entries(keys, data)) == TotalSpent(seen)
    ensures SumValues(Entries(keys + [e.category], data[e.category := e.amount])) == TotalSpent(seen + [e])
  {
    var all := seen + [e];
    assert all[..|all| - 1] == seen;
    EntriesAppend(keys, data, e.category, e.amount);
  }

  /** An expense of a category already seen keeps `Accumulated`. */
  lemma AccumulateKnown(seen: seq<Expense>, e: Expense, keys: seq<string>, data: map<string, real>)
    requires Accumulated(seen, keys, data) && e.category in data
    ensures Accumulated(seen + [e], keys, data[e.category := data[e.category] + e.amount])
  {
    var data' := data[e.category := data[e.category] + e.amount];
    assert KeysOf(keys, data') by {
      StepKeys(keys, data, e.category, data[e.category] + e.amount);
    }
    assert SumsSoFar(seen + [e], data') by {
      StepSums(seen, e, data);
    }
    StepTotalKnown(seen, e, keys, data);
  }

  /** An expense of a new category keeps `Accumulated`, its category appended to `keys`. */
  lemma AccumulateNew(seen: seq<Expense>, e: Expense, keys: seq<string>, data: map<string, real>)
    requires Accumulated(seen, keys, data) && e.category !in data
    ensures Accumulated(seen + [e], keys + [e.category], data[e.category := e.amount])
  {
    var data' := data[e.category := e.amount];
    assert KeysOf(keys + [e.category], data') by {
      StepKeys(keys, data, e.category, e.amount);
    }
    assert SumsSoFar(seen + [e], data') by {
      StepSums(seen, e, data);
      assert 0.0 + e.amount == e.amount;
    }
    StepTotalNew(seen, e, keys, data);
  }

  /** After the last expense the entries are the result categoryData promises. */
  lemma AccumulatedEntries(expenses: seq<Expense>, keys: seq<string>, data: map<string, real>)
    requires Accumulated(expenses, keys, data)
    ensures var entries := Entries(keys, data);
            && Distinct(Names(entries))
            && (forall c :: c in Names(entries) <==> c in Categories(expenses))
            && (forall j :: 0 <= j < |entries| ==> entries[j].value == CategorySum(expenses, entries[j].name))
            && SumValues(entries) == TotalSpent(expenses)
  {
    var entries := Entries(keys, data);
    assert Names(entries) == keys;
  }

  /** categoryData: one pass over the expenses accumulating each category's amount in
      a dictionary, then its entries. Each category occurs once, with the sum of its
      amounts, and the entries add up to the total spent. */
  method CategoryData(expenses: seq<Expense>) returns (entries: seq<CategoryEntry>)
    ensures Distinct(Names(entries))
    ensures forall c :: c in Names(entries) <==> c in Categories(expenses)
    ensures forall j :: 0 <= j < |entries| ==> entries[j].value == CategorySum(expenses, entries[j].name)
    ensures SumValues(entries) == TotalSpent(expenses)
  {
    var data: map<string, real> := map[];
    var keys: seq<string> := [];
    for i := 0 to |expenses|
      invariant Accumulated(expenses[..i], keys, data)
    {
      var e := expenses[i];
      assert expenses[..i + 1] == expenses[..i] + [e];
      if e.category in data {
        AccumulateKnown(expenses[..i], e, keys, data);
        data := data[e.category := data[e.category] + e.amount];
      } else {
        AccumulateNew(expenses[..i], e, keys, data);
        keys := keys + [e.category];
        data := data[e.category := e.amount];
      }
    }
    assert expenses[..|expenses|] == expenses;
    AccumulatedEntries(expenses, keys, data);
    entries := Entries(keys, data);
  }

  /** The sort key of recentActivity: the parsed date. */
  function DateKey(timeOf: string -> real): Expense -> real {
    (e: Expense) => timeOf(e.date)
  }

  /** recentActivity: a copy of the list sorted newest first, cut to five. */
  function RecentActivity(expenses: seq<Expense>, timeOf: string -> real): seq<Expense> {
    Take(SortDesc(expenses, DateKey(timeOf)), 5)
  }

  /** The five (or fewer) newest expenses, newest first, taken from the list without
      repeats; expenses with the same date keep their list order. */
  lemma RecentActivityNewestFirst(expenses: seq<Expense>, timeOf: string -> real)
    ensures var r := RecentActivity(expenses, timeOf);
            && |r| == Min(5, |expenses|)
            && IsTopK(r, expenses, DateKey(timeOf), 5)
            && forall t :: WithKey(r, DateKey(timeOf), t) <= WithKey(expenses, DateKey(timeOf), t)
  {
    SortThenTake(expenses, DateKey(timeOf), 5);
  }

  function ValueOf(e: CategoryEntry): real { e.value }

  /** `categoryData.sort((a, b) => b.value - a.value)[0]?.name || 'N/A'`. */
  function TopCategory(entries: seq<CategoryEntry>): string {
    var sorted := SortDesc(entries, ValueOf);
    if |sorted| == 0 || sorted[0].name == "" then "N/A" else sorted[0].name
  }

  /** Reference definition: the first entry holding the largest value. */
  function FirstMaxIndex(entries: seq<CategoryEntry>): (i: nat)
    requires entries != []
    ensures i < |entries|
    ensures forall j :: 0 <= j < |entries| ==> entries[j].value <= entries[i].value
    ensures forall j :: 0 <= j < i ==> entries[j].value < entries[i].value
  {
    if |entries| == 1 then 0
    else
      var k := FirstMaxIndex(entries[..|entries| - 1]);
      assert forall j :: 0 <= j < |entries| - 1 ==> entries[..|entries| - 1][j] == entries[j];
      if entries[k].value < entries[|entries| - 1].value then |entries| - 1 else k
  }

  /** The first element of `s` with key `v` heads `WithKey(s, key, v)`. */
  lemma {:induction false} WithKeyFirst<T>(s: seq<T>, key: T -> real, v: real, i: nat)
    requires i < |s| && key(s[i]) == v
    requires forall j :: 0 <= j < i ==> key(s[j]) != v
    ensures WithKey(s, key, v) != [] && WithKey(s, key, v)[0] == s[i]
  {
    if i > 0 {
      WithKeyFirst(s[1..], key, v, i - 1);
    }
  }

  /** The top category is the name of the first entry with the largest value, or
      'N/A' when there is no entry or that name is empty. */
  lemma TopCategoryIsFirstMax(entries: seq<CategoryEntry>)
    ensures entries == [] ==> TopCategory(entries) == "N/A"
    ensures entries != [] ==>
              var name := entries[FirstMaxIndex(entries)].name;
              TopCategory(entries) == if name == "" then "N/A" else name
  {
    if entries != [] {
      var sorted := SortDesc(entries, ValueOf);
      var i := FirstMaxIndex(entries);
      var m := entries[i].value;
      SortDescNonIncreasing(entries, ValueOf);
      SortDescKeepsOrder(entries, ValueOf);
      assert sorted[0] in entries by {
        assert sorted[0] in multiset(sorted);
      }
      assert entries[i] in sorted by {
        assert entries[i] in multiset(entries);
      }
      FirstIsLargest(sorted, ValueOf, entries[i]);
      assert ValueOf(sorted[0]) == m;
      WithKeyFirst(sorted, ValueOf, m, 0);
      WithKeyFirst(entries, ValueOf, m, i);
      assert WithKey(sorted, ValueOf, m) == WithKey(entries, ValueOf, m);
    }
  }

  /** Every entry names a category of some expense, so there are no entries
      without expenses. */
  lemma EntriesNeedExpenses(expenses: seq<Expense>, entries: seq<CategoryEntry>)
    requires forall c :: c in Names(entries) <==> c in Categories(expenses)
    ensures entries != [] ==> expenses != []
  {
    if entries != [] {
      assert entries[0].name in Names(entries);
    }
  }

  /** The dashboard's four figures for one list of expenses. */
  datatype Stats = Stats(
    totalSpent: real,
    categoryData: seq<CategoryEntry>,
    recentActivity: seq<Expense>,
    topCategory: string)

  /** The component body: the three memos and the top-category card. The top category
      is 'N/A' for no expenses; otherwise, unless it is 'N/A', it is a category whose
      sum no other category exceeds. */
  method ComputeStats(expenses: seq<Expense>, timeOf: string -> real) returns (stats: Stats)
    ensures stats.totalSpent == TotalSpent(expenses)
    ensures SumValues(stats.categoryData) == stats.totalSpent
    ensures stats.recentActivity == RecentActivity(expenses, timeOf)
    ensures stats.topCategory == TopCategory(stats.categoryData)
    ensures expenses == [] ==> stats.topCategory == "N/A"
    ensures stats.topCategory != "N/A" ==>
              && stats.topCategory in Categories(expenses)
              && forall c :: c in Categories(expenses) ==>
                   CategorySum(expenses, c) <= CategorySum(expenses, stats.topCategory)
  {
    var totalSpent := TotalSpent(expenses);
    var categoryData := CategoryData(expenses);
    var recentActivity := RecentActivity(expenses, timeOf);
    var topCategory := TopCategory(categoryData);
    TopCategoryIsFirstMax(categoryData);
    EntriesNeedExpenses(expenses, categoryData);
    if topCategory != "N/A" {
      var i := FirstMaxIndex(categoryData);
      assert topCategory == categoryData[i].name;
      assert topCategory in Names(categoryData);
      forall c | c in Categories(expenses)
        ensures CategorySum(expenses, c) <= CategorySum(expenses, topCategory)
      {
        assert c in Names(categoryData);
        var j :| 0 <= j < |categoryData| && Names(categoryData)[j] == c;
        assert categoryData[j].value <= categoryData[i].value;
      }
    }
    stats := Stats(totalSpent, categoryData, recentActivity, topCategory);
  }
}
