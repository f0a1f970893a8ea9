/**
 * The chat assistant: the summary it keeps of the transactions (totals,
 * the last twelve months, the five largest expense categories, six recent
 * transactions), the rule-by-rule answer to a question, and the message
 * log a send appends to. The stored predictions are inputs.
 */
module ChatBot {
  import opened Common
  import opened Text
  import opened Sorting
  import opened Tallies
  import Predictions

  // ---------------------------------------------------------------------
  // The summary

  /** `(t.type || "").toLowerCase() === "income"`. */
  predicate IsIncome(t: Transaction)
  {
    ToLower(t.kind) == "income"
  }

  /** `t.category || "Other"`. */
  function CategoryOf(t: Transaction): string
  {
    if t.category == "" then "Other" else t.category
  }

  /** The `YYYY-MM` month of a transaction's date, or "unknown" when the
      date does not read as a calendar date. */
  function MonthKey(t: Transaction): (k: string)
    ensures k == "unknown" <==> ParseIso(t.date).None?
    ensures k != "unknown" ==> |k| == 7 && k == t.date[..7]
  {
    if ParseIso(t.date).Some? then
      assert t.date[..7][4] == '-';
      t.date[..7]
    else "unknown"
  }

  function MonthKeys(txs: seq<Transaction>): (ks: seq<string>)
    ensures |ks| == |txs| && forall i :: 0 <= i < |txs| ==> ks[i] == MonthKey(txs[i])
  {
    seq(|txs|, i requires 0 <= i < |txs| => MonthKey(txs[i]))
  }

  /** One month's entry of `byMonth`. */
  datatype MonthTotals = MonthTotals(income: real, expense: real, count: nat)

  const NoTotals := MonthTotals(0.0, 0.0, 0)

  /** One transaction added to its month's entry. */
  function AddTo(cur: MonthTotals, t: Transaction): MonthTotals
  {
    if IsIncome(t) then MonthTotals(cur.income + t.amount, cur.expense, cur.count + 1)
    else MonthTotals(cur.income, cur.expense + t.amount, cur.count + 1)
  }

  /** `byMonth` after the transactions, in order, each under the key at
      the same position of `keys`. */
  function MonthTally(keys: seq<string>, txs: seq<Transaction>): (m: map<string, MonthTotals>)
    requires |keys| == |txs|
    ensures forall k :: k in m <==> k in keys
  {
    if |txs| == 0 then map[]
    else
      var n := |txs| - 1;
      var m := MonthTally(keys[..n], txs[..n]);
      assert keys == keys[..n] + [keys[n]];
      m[keys[n] := AddTo(if keys[n] in m then m[keys[n]] else NoTotals, txs[n])]
  }

  /** `totalIncome`: the amounts of the income transactions. */
  function IncomeTotal(txs: seq<Transaction>): real
  {
    if |txs| == 0 then 0.0
    else IncomeTotal(txs[..|txs| - 1]) + (if IsIncome(txs[|txs| - 1]) then txs[|txs| - 1].amount else 0.0)
  }

  /** `totalExpense`: the amounts of every other transaction. */
  function ExpenseTotal(txs: seq<Transaction>): real
  {
    if |txs| == 0 then 0.0
    else ExpenseTotal(txs[..|txs| - 1]) + (if IsIncome(txs[|txs| - 1]) then 0.0 else txs[|txs| - 1].amount)
  }

  /** Every amount lands in exactly one of the two totals. */
  lemma {:induction false} TotalsSplit(txs: seq<Transaction>)
    ensures IncomeTotal(txs) + ExpenseTotal(txs) == AmountTotal(txs)
  {
    if |txs| > 0 {
      TotalsSplit(txs[..|txs| - 1]);
    }
  }

  /** The transactions `byCategory` sums: the non-income ones, under
      `CategoryOf`. */
  function ExpenseRows(txs: seq<Transaction>): (r: seq<Transaction>)
    ensures forall u :: u in r ==> u.category != "" && !IsIncome(u)
  {
    if |txs| == 0 then []
    else
      var t := txs[|txs| - 1];
      ExpenseRows(txs[..|txs| - 1]) + (if IsIncome(t) then [] else [Relabel(t)])
  }

  /** The transactions whose key, at the same position of `keys`, is `k`,
      in order. */
  function InMonth(keys: seq<string>, txs: seq<Transaction>, k: string): (r: seq<Transaction>)
    requires |keys| == |txs|
    ensures forall t :: t in r ==> t in txs
  {
    if |txs| == 0 then []
    else
      var n := |txs| - 1;
      assert forall t :: t in txs[..n] ==> t in txs;
      InMonth(keys[..n], txs[..n], k) + (if keys[n] == k then [txs[n]] else [])
  }

  /** Each entry of `byMonth` holds its month's income total, the total of
      its other transactions, and how many transactions it has. */
  lemma {:induction false} MonthTallyMeaning(keys: seq<string>, txs: seq<Transaction>, k: string)
    requires |keys| == |txs| && k in keys
    ensures var ts := InMonth(keys, txs, k);
      MonthTally(keys, txs)[k] == MonthTotals(IncomeTotal(ts), ExpenseTotal(ts), |ts|)
    decreases |txs|
  {
    var n := |txs| - 1;
    var init := InMonth(keys[..n], txs[..n], k);
    var ts := InMonth(keys, txs, k);
    assert keys == keys[..n] + [keys[n]];
    if keys[n] == k {
      assert ts == init + [txs[n]];
      assert ts[..|ts| - 1] == init;
      if k in keys[..n] {
        MonthTallyMeaning(keys[..n], txs[..n], k);
      } else {
        InMonthAbsent(keys[..n], txs[..n], k);
      }
    } else {
      assert ts == init;
      MonthTallyMeaning(keys[..n], txs[..n], k);
    }
  }

  /** A key that does not occur has no transactions. */
  lemma {:induction false} InMonthAbsent(keys: seq<string>, txs: seq<Transaction>, k: string)
    requires |keys| == |txs| && k !in keys
    ensures InMonth(keys, txs, k) == []
    decreases |txs|
  {
    if |txs| > 0 {
      var n := |txs| - 1;
      assert keys == keys[..n] + [keys[n]];
      InMonthAbsent(keys[..n], txs[..n], k);
    }
  }

  /** With the month keys of the transactions themselves, a month's
      transactions are exactly those whose date falls in that month. */
  lemma {:induction false} InMonthKeys(txs: seq<Transaction>, k: string)
    ensures forall t :: t in InMonth(MonthKeys(txs), txs, k) <==> t in txs && MonthKey(t) == k
    decreases |txs|
  {
    if |txs| > 0 {
      var n := |txs| - 1;
      assert MonthKeys(txs)[..n] == MonthKeys(txs[..n]);
      assert txs == txs[..n] + [txs[n]];
      InMonthKeys(txs[..n], k);
    }
  }

  /** The row `byCategory` reads for a transaction: its category, or
      "Other". */
  function Relabel(t: Transaction): Transaction
  {
    t.(category := CategoryOf(t))
  }

  /** Every non-income transaction is a row of `byCategory`'s input under
      its category (or "Other"), and every row comes from one. */
  lemma {:induction false} ExpenseRowsMeaning(txs: seq<Transaction>)
    ensures forall t :: t in txs && !IsIncome(t) ==> Relabel(t) in ExpenseRows(txs)
    ensures forall u :: u in ExpenseRows(txs) ==> exists t :: t in txs && !IsIncome(t) && u == Relabel(t)
    decreases |txs|
  {
    if |txs| > 0 {
      var n := |txs| - 1;
      var t := txs[n];
      ExpenseRowsMeaning(txs[..n]);
      assert txs == txs[..n] + [t];
      assert ExpenseRows(txs) == ExpenseRows(txs[..n]) + (if IsIncome(t) then [] else [Relabel(t)]);
      forall u | u in ExpenseRows(txs)
        ensures exists v :: v in txs && !IsIncome(v) && u == Relabel(v)
      {
        if u in ExpenseRows(txs[..n]) {
          var v :| v in txs[..n] && !IsIncome(v) && u == Relabel(v);
          assert v in txs;
        } else {
          assert u == Relabel(t) && t in txs;
        }
      }
    }
  }

  /** The transactions the `else` branch of the loop sees: the non-income
      ones, each as often as in the input, in order. */
  function NonIncome(txs: seq<Transaction>): (r: seq<Transaction>)
    ensures forall t {:trigger multiset(r)[t]} :: multiset(r)[t] == if IsIncome(t) then 0 else multiset(txs)[t]
  {
    if |txs| == 0 then []
    else
      var last := txs[|txs| - 1];
      assert multiset(txs) == multiset(txs[..|txs| - 1]) + multiset{last} by {
        assert txs == txs[..|txs| - 1] + [last];
      }
      NonIncome(txs[..|txs| - 1]) + (if IsIncome(last) then [] else [last])
  }

  /** The rows are the non-income transactions one for one, in order, each
      under its category (or "Other"). */
  lemma {:induction false} ExpenseRowsCount(txs: seq<Transaction>)
    ensures var n := NonIncome(txs);
      |ExpenseRows(txs)| == |n| && forall i :: 0 <= i < |n| ==> ExpenseRows(txs)[i] == Relabel(n[i])
    decreases |txs|
  {
    if |txs| > 0 {
      ExpenseRowsCount(txs[..|txs| - 1]);
    }
  }

  /** The rows' amounts add up to the expense total. */
  lemma {:induction false} ExpenseRowsTotal(txs: seq<Transaction>)
    ensures AmountTotal(ExpenseRows(txs)) == ExpenseTotal(txs)
    decreases |txs|
  {
    if |txs| > 0 {
      var n := |txs| - 1;
      var t := txs[n];
      ExpenseRowsTotal(txs[..n]);
      if !IsIncome(t) {
        assert ExpenseRows(txs) == ExpenseRows(txs[..n]) + [Relabel(t)];
        AmountTotalSnoc(ExpenseRows(txs[..n]), Relabel(t));
      } else {
        assert ExpenseRows(txs) == ExpenseRows(txs[..n]);
      }
    }
  }

  /** A month of `months`. */
  datatype MonthRow = MonthRow(month: string, income: real, expense: real, count: nat)

  /** A transaction of `sampleRecent`. */
  datatype Sample = Sample(date: string, amount: real, kind: string, category: string)

  /** The object `summarize` returns. */
  datatype TxSummary = TxSummary(
    totalIncome: real,
    totalExpense: real,
    net: real,
    months: seq<MonthRow>,
    topCategories: seq<CategorySum>,
    txCount: nat,
    sampleRecent: seq<Sample>)

  /** `slice(-n)`. */
  function Last<T>(s: seq<T>, n: nat): (r: seq<T>)
    ensures |r| == if |s| < n then |s| else n
    ensures r == s[|s| - |r|..]
  {
    if |s| > n then s[|s| - n..] else s
  }

  /** `slice(0, n)`. */
  function Take<T>(s: seq<T>, n: nat): (r: seq<T>)
    ensures |r| == if |s| < n then |s| else n
    ensures r == s[..|r|]
  {
    if |s| > n then s[..n] else s
  }

  /** `new Date(date || 0).getTime()` in days: an empty date is the epoch,
      1970-01-01. Only ISO dates are read; any other text also stands for
      the epoch here, where `new Date` would give an invalid date. */
  function DateDays(date: string): real
  {
    var d := ParseIso(date);
    if d.Some? then DayNumber(d.value) as real else DayNumber(CalDate(1970, 1, 1)) as real
  }

  /** The sort key of `sampleRecent`: the transaction's `DateDays`. */
  function SampleKey(t: Transaction): real
  {
    DateDays(t.date)
  }

  function ToSample(t: Transaction): Sample
  {
    Sample(t.date, t.amount, t.kind, t.category)
  }

  /** The month keys, sorted, last twelve. */
  function KeptMonths(txs: seq<Transaction>): (ks: seq<string>)
    ensures |ks| <= 12
    ensures forall i :: 0 <= i < |ks| ==> ks[i] in MonthKeys(txs)
  {
    var keys := SortStrings(Dedup(MonthKeys(txs)));
    var kept := Last(keys, 12);
    assert forall i :: 0 <= i < |kept| ==> kept[i] in multiset(keys);
    kept
  }

  /** `months`: the last twelve month keys in sorted order, each with its
      entry. */
  function Months(txs: seq<Transaction>): (rows: seq<MonthRow>)
    ensures |rows| == |KeptMonths(txs)|
    ensures forall i :: 0 <= i < |rows| ==> rows[i].month == KeptMonths(txs)[i]
    ensures forall i :: 0 <= i < |rows| ==>
      (rows[i].month in MonthTally(MonthKeys(txs), txs) &&
       var e := MonthTally(MonthKeys(txs), txs)[rows[i].month];
       rows[i] == MonthRow(rows[i].month, e.income, e.expense, e.count))
  {
    var kept := KeptMonths(txs);
    var tally := MonthTally(MonthKeys(txs), txs);
    seq(|kept|, i requires 0 <= i < |kept| =>
      var e := tally[kept[i]]; MonthRow(kept[i], e.income, e.expense, e.count))
  }

  /** What `summarize` returns for a non-empty list: the two totals, their
      difference, the kept months, the top categories, the count and the
      newest transactions. */
  predicate Summarizes(txs: seq<Transaction>, s: TxSummary)
  {
    |txs| > 0 &&
    s.totalIncome == IncomeTotal(txs) && s.totalExpense == ExpenseTotal(txs) &&
    s.net == s.totalIncome - s.totalExpense && s.months == Months(txs) &&
    s.topCategories == TopCategories(txs) && s.txCount == |txs| && s.sampleRecent == SampleRecent(txs)
  }

  /** `topCategories`: the expense categories by amount, largest first,
      first five. */
  function TopCategories(txs: seq<Transaction>): seq<CategorySum>
  {
    Take(SortDesc(CategoryEntries(ExpenseRows(txs)), Amount), 5)
  }

  /** `sampleRecent`: the transactions by date, newest first, first six. */
  function SampleRecent(txs: seq<Transaction>): seq<Sample>
  {
    Samples(Take(SortDesc(txs, SampleKey), 6))
  }

  function Samples(txs: seq<Transaction>): (r: seq<Sample>)
    ensures |r| == |txs| && forall i :: 0 <= i < |txs| ==> r[i] == ToSample(txs[i])
  {
    seq(|txs|, i requires 0 <= i < |txs| => ToSample(txs[i]))
  }

  /** The `forEach` of `summarize`, given each transaction's month key:
      the two totals, `byMonth`, and its keys in the order they were
      added. */
  method Pass(txs: seq<Transaction>, keys: seq<string>)
    returns (totalIncome: real, totalExpense: real, byMonth: map<string, MonthTotals>, monthOrder: seq<string>)
    requires |keys| == |txs|
    ensures totalIncome == IncomeTotal(txs) && totalExpense == ExpenseTotal(txs)
    ensures byMonth == MonthTally(keys, txs)
    ensures monthOrder == Dedup(keys)
  {
    totalIncome := 0.0;
    totalExpense := 0.0;
    byMonth := map[];
    monthOrder := [];
    for i := 0 to |txs|
      invariant totalIncome == IncomeTotal(txs[..i])
      invariant totalExpense == ExpenseTotal(txs[..i])
      invariant byMonth == MonthTally(keys[..i], txs[..i])
      invariant monthOrder == Dedup(keys[..i])
    {
      var t := txs[i];
      var k := keys[i];
      PassStep(txs, keys, i);
      var cur := if k in byMonth then byMonth[k] else NoTotals;
      if IsIncome(t) {
        totalIncome := totalIncome + t.amount;
      } else {
        totalExpense := totalExpense + t.amount;
      }
      byMonth := byMonth[k := AddTo(cur, t)];
      if k !in monthOrder {
        monthOrder := monthOrder + [k];
      }
    }
    assert txs[..|txs|] == txs && keys[..|keys|] == keys;
  }

  /** What one more transaction does to the totals, the months and the
      month keys. */
  lemma PassStep(txs: seq<Transaction>, keys: seq<string>, i: nat)
    requires |keys| == |txs| && i < |txs|
    ensures var t := txs[i]; var k := keys[i]; var m := MonthTally(keys[..i], txs[..i]);
      IncomeTotal(txs[..i + 1]) == IncomeTotal(txs[..i]) + (if IsIncome(t) then t.amount else 0.0) &&
      ExpenseTotal(txs[..i + 1]) == ExpenseTotal(txs[..i]) + (if IsIncome(t) then 0.0 else t.amount) &&
      MonthTally(keys[..i + 1], txs[..i + 1]) == m[k := AddTo(if k in m then m[k] else NoTotals, t)] &&
      Dedup(keys[..i + 1]) == (var d := Dedup(keys[..i]); if k in d then d else d + [k])
  {
    assert txs[..i + 1][..i] == txs[..i];
    assert keys[..i + 1][..i] == keys[..i];
  }

  /** `summarize`: the pass over the transactions (the category sums are
      the same loop as elsewhere), then the month keys sorted and cut to
      the last twelve, the categories sorted by amount and cut to five, and
      the six newest transactions. */
  method Summarize(txs: seq<Transaction>) returns (s: Option<TxSummary>)
    ensures s.None? <==> |txs| == 0
    ensures s.Some? ==> Summarizes(txs, s.value)
  {
    if |txs| == 0 {
      return None;
    }
    var totalIncome, totalExpense, byMonth, monthOrder := Pass(txs, MonthKeys(txs));
    var months := MonthRows(txs, byMonth, monthOrder);
    var top := TopFive(txs);
    var samples := NewestSix(txs);
    s := Some(TxSummary(totalIncome, totalExpense, totalIncome - totalExpense, months, top, |txs|, samples));
  }

  /** The month keys in sorted order, the last twelve, each with its entry
      of `byMonth`. */
  method MonthRows(txs: seq<Transaction>, byMonth: map<string, MonthTotals>, monthOrder: seq<string>)
    returns (months: seq<MonthRow>)
    requires byMonth == MonthTally(MonthKeys(txs), txs) && monthOrder == Dedup(MonthKeys(txs))
    ensures months == Months(txs)
  {
    var kept := Last(SortStrings(monthOrder), 12);
    KeptTallied(txs, kept);
    months := seq(|kept|, i requires 0 <= i < |kept| =>
      var e := byMonth[kept[i]]; MonthRow(kept[i], e.income, e.expense, e.count));
    MonthsFrom(txs, kept, byMonth, months);
  }

  /** The category sums sorted by amount, largest first, first five. */
  method TopFive(txs: seq<Transaction>) returns (top: seq<CategorySum>)
    ensures top == TopCategories(txs)
  {
    var entries := CategorySums(ExpenseRows(txs));
    top := Take(SortDesc(entries, Amount), 5);
  }

  /** The transactions by date, newest first, first six, as samples. */
  method NewestSix(txs: seq<Transaction>) returns (samples: seq<Sample>)
    ensures samples == SampleRecent(txs)
    ensures |samples| == if |txs| < 6 then |txs| else 6
    ensures forall i, j :: 0 <= i < j < |samples| ==> DateDays(samples[i].date) >= DateDays(samples[j].date)
    ensures forall u :: u in samples ==> exists t :: t in txs && u == ToSample(t)
    ensures forall t :: t in txs && ToSample(t) !in samples ==>
      |samples| == 6 && SampleKey(t) <= DateDays(samples[5].date)
  {
    var recent := Take(SortDesc(txs, SampleKey), 6);
    samples := seq(|recent|, i requires 0 <= i < |recent| => ToSample(recent[i]));
    SampleRecentOrder(txs);
    SampleRecentFrom(txs);
    SampleRecentNewest(txs);
  }

  /** Every kept month key has an entry in `byMonth`. */
  lemma KeptTallied(txs: seq<Transaction>, kept: seq<string>)
    requires kept == Last(SortStrings(Dedup(MonthKeys(txs))), 12)
    ensures kept == KeptMonths(txs)
    ensures forall i :: 0 <= i < |kept| ==> kept[i] in MonthTally(MonthKeys(txs), txs)
  {
  }

  /** The month rows built from the kept keys and the tally are `months`. */
  lemma MonthsFrom(txs: seq<Transaction>, kept: seq<string>, tally: map<string, MonthTotals>, months: seq<MonthRow>)
    requires kept == Last(SortStrings(Dedup(MonthKeys(txs))), 12)
    requires tally == MonthTally(MonthKeys(txs), txs)
    requires forall i :: 0 <= i < |kept| ==> kept[i] in tally
    requires |months| == |kept|
    requires forall i :: 0 <= i < |kept| ==>
      months[i] == MonthRow(kept[i], tally[kept[i]].income, tally[kept[i]].expense, tally[kept[i]].count)
    ensures months == Months(txs)
  {
    assert kept == KeptMonths(txs);
  }

  /** "Income" and "INCOME" are income too. */
  lemma IncomeAnyCase(t: Transaction)
    requires t.kind == "Income" || t.kind == "INCOME"
    ensures IsIncome(t)
  {
    assert ToLower(t.kind) == "income";
  }

  /** `months` holds at most twelve months, in ascending key order, each
      a month some transaction falls in, with that month's totals. */
  lemma SummaryMonths(txs: seq<Transaction>)
    ensures var ms := Months(txs);
      |ms| <= 12 &&
      (forall i :: 0 < i < |ms| ==> LexLeq(ms[i - 1].month, ms[i].month)) &&
      (forall i :: 0 <= i < |ms| ==> exists t :: t in txs && MonthKey(t) == ms[i].month)
  {
    KeptAscending(txs);
    var ms := Months(txs);
    forall i | 0 <= i < |ms| ensures exists t :: t in txs && MonthKey(t) == ms[i].month {
      var ks := MonthKeys(txs);
      var j :| 0 <= j < |ks| && ks[j] == ms[i].month;
      assert txs[j] in txs;
    }
  }

  /** The kept keys are the last of the sorted keys, so in order too. */
  lemma KeptAscending(txs: seq<Transaction>)
    ensures Ascending(KeptMonths(txs))
  {
    var keys := SortStrings(Dedup(MonthKeys(txs)));
    SortStringsAscending(Dedup(MonthKeys(txs)));
    var kept := KeptMonths(txs);
    var d := |keys| - |kept|;
    assert kept == keys[d..];
    forall i | 0 < i < |kept| ensures LexLeq(kept[i - 1], kept[i]) {
      assert keys[d + i - 1] == kept[i - 1] && keys[d + i] == kept[i];
    }
  }

  /** At most five categories, largest first, each a category of the
      non-income transactions with its total. */
  lemma SummaryTop(txs: seq<Transaction>)
    ensures var top := TopCategories(txs);
      |top| <= 5 && SortedDesc(top, Amount) &&
      (forall e :: e in top ==>
         e.category in Names(ExpenseRows(txs)) && e.amount == CategoryTotal(ExpenseRows(txs), e.category))
  {
    var rows := ExpenseRows(txs);
    var es := CategoryEntries(rows);
    var sorted := SortDesc(es, Amount);
    SortDescSorted(es, Amount);
    var top := Take(sorted, 5);
    forall e | e in top
      ensures e.category in Names(rows) && e.amount == CategoryTotal(rows, e.category)
    {
      assert e in multiset(sorted);
      assert e in es;
    }
  }

  /** At most six transactions, newest first. */
  lemma SummaryRecent(txs: seq<Transaction>)
    ensures var r := Take(SortDesc(txs, SampleKey), 6);
      SampleRecent(txs) == Samples(r) &&
      |r| <= 6 && SortedDesc(r, SampleKey) && (forall t :: t in r ==> t in txs)
  {
    SortDescSorted(txs, SampleKey);
    var sorted := SortDesc(txs, SampleKey);
    forall t | t in Take(sorted, 6) ensures t in txs {
      assert t in multiset(sorted);
    }
  }

  /** `sampleRecent` holds six samples, fewer only when there are fewer
      transactions, newest first. */
  lemma SampleRecentOrder(txs: seq<Transaction>)
    ensures var r := SampleRecent(txs);
      |r| == (if |txs| < 6 then |txs| else 6) &&
      forall i, j :: 0 <= i < j < |r| ==> DateDays(r[i].date) >= DateDays(r[j].date)
  {
    SummaryRecent(txs);
  }

  /** Each sample is one of an input transaction. */
  lemma SampleRecentFrom(txs: seq<Transaction>)
    ensures forall u :: u in SampleRecent(txs) ==> exists t :: t in txs && u == ToSample(t)
  {
    SummaryRecent(txs);
    var kept := Take(SortDesc(txs, SampleKey), 6);
    var r := SampleRecent(txs);
    forall u | u in r
      ensures exists t :: t in txs && u == ToSample(t)
    {
      var i :| 0 <= i < |r| && r[i] == u;
      assert kept[i] in kept;
    }
  }

  /** A transaction left out is no newer than the last one kept. */
  lemma SampleRecentNewest(txs: seq<Transaction>)
    ensures var r := SampleRecent(txs);
      forall t :: t in txs && ToSample(t) !in r ==> |r| == 6 && SampleKey(t) <= DateDays(r[5].date)
  {
    var sorted := SortDesc(txs, SampleKey);
    SortDescSorted(txs, SampleKey);
    var r := SampleRecent(txs);
    forall t | t in txs && ToSample(t) !in r
      ensures |r| == 6 && SampleKey(t) <= DateDays(r[5].date)
    {
      assert t in multiset(txs);
      NewestKept(sorted, r, t);
    }
  }

  lemma NewestKept(sorted: seq<Transaction>, r: seq<Sample>, t: Transaction)
    requires SortedDesc(sorted, SampleKey) && r == Samples(Take(sorted, 6))
    requires t in sorted && ToSample(t) !in r
    ensures |r| == 6 && SampleKey(t) <= DateDays(r[5].date)
  {
    var k :| 0 <= k < |sorted| && sorted[k] == t;
    assert |r| <= k;
    assert SampleKey(sorted[5]) >= SampleKey(sorted[k]);
  }

  // ---------------------------------------------------------------------
  // The answers of `getAnswer`
  // ---------------------------------------------------------------------

  /** A month of the stored monthly predictions. */
  datatype PredMonth = PredMonth(month: string, income: real, expenses: real, savings: real)

  /** The stored `summary` of the monthly predictions; a missing field is
      `None`. */
  datatype PredSummary = PredSummary(
    avgIncome: Option<real>,
    avgExpenses: Option<real>,
    avgSavings: Option<real>,
    confidence: Option<real>)

  /** The stored monthly predictions: `monthly_predictions` (missing or an
      array), `summary`, and the message of each insight ("" for an insight
      without one). */
  datatype MonthlyStore = MonthlyStore(
    months: Option<seq<PredMonth>>,
    summary: Option<PredSummary>,
    insights: seq<string>)

  /** A year of the stored yearly predictions. */
  datatype YearPred = YearPred(income: real, expenses: real, savings: real, confidence: Option<real>)

  /** The `predictions` field of the yearly store: missing, an array, or a
      single object. */
  datatype YearPreds = NoYears | YearList(years: seq<YearPred>) | YearObject(year: YearPred)

  datatype YearlyStore = YearlyStore(predictions: YearPreds, insights: seq<string>)

  /** What an answer can read: the transaction summary and the two stored
      predictions, each possibly absent. */
  datatype Context = Context(
    summary: Option<TxSummary>,
    monthly: Option<MonthlyStore>,
    yearly: Option<YearlyStore>)

  /** One entry of the "available data" answer. */
  datatype Part = TxPart(count: nat) | MonthlyPart | YearlyPart

  /** The answers, one constructor per reply `getAnswer` can give; the
      figures each one prints are its fields. */
  datatype Reply =
    | Greet
    | ModelInfo
    | MonthlyReady(monthCount: nat)
    | MonthlyPending
    | Available(parts: seq<Part>)
    | NothingAvailable
    | TotalsOf(txCount: nat, income: real, expense: real, net: real, top: seq<CategorySum>)
    | Averages(avgIncome: real, avgExpense: real)
    | AvgIncome(amount: real)
    | AvgExpenses(amount: real)
    | AvgSavings(amount: real)
    | ConfidenceIs(percent: int, level: string)
    | Annual(year: YearPred)
    | TopList(top: seq<CategorySum>)
    | NoCategories
    | RecentList(recent: seq<Sample>)
    | NoRecent
    | LatestPredicted(latest: PredMonth)
    | AllPredicted(count: nat, first: PredMonth, last: PredMonth, income: real, expenses: real, savings: real)
    | LatestPredictedOf(latest: PredMonth, count: nat)
    | LatestHistorical(row: MonthRow)
    | InsightMessage(message: string)
    | Welcome
    | Goodbye
    | Help
    | NoTransactions
    | Fallback

  /** `(q || "").toLowerCase().trim()`. */
  function Normalize(q: string): string
  {
    Trim(ToLower(q))
  }

  /** `query.includes(p1) || query.includes(p2) || ...`. */
  predicate Mentions(query: string, words: seq<string>)
  {
    exists i :: 0 <= i < |words| && Includes(query, words[i])
  }

  /** Every word is longer than `n` characters. */
  predicate LongerThan(words: seq<string>, n: nat)
  {
    forall i :: 0 <= i < |words| ==> |words[i]| > n
  }

  /** A query shorter than every word mentions none of them. */
  lemma ShortMentionsNothing(query: string, words: seq<string>)
    requires LongerThan(words, |query|)
    ensures !Mentions(query, words)
  {
    forall i | 0 <= i < |words| && Includes(query, words[i])
      ensures false
    {
      IncludesLength(query, words[i]);
    }
  }

  const ModelWords: seq<string> :=
    ["model", "prediction model", "how does it work", "what model", "algorithm", "sarima"]
  const MonthlyDataWords: seq<string> :=
    ["monthly data", "access monthly", "where is monthly", "how to see monthly", "monthly predictions", "view monthly"]
  const DataWords: seq<string> := ["data available", "what data", "available data"]
  const TotalWords: seq<string> := ["total", "summary", "balance"]
  const ExpenseWords: seq<string> := ["expense", "spend"]
  const ConfidenceWords: seq<string> := ["confidence", "reliable"]
  const YearWords: seq<string> := ["year", "annual"]
  const CategoryWords: seq<string> := ["category", "categories"]
  const RecentWords: seq<string> := ["recent", "latest"]
  const LatestWords: seq<string> := ["latest", "last month", "recent month"]
  const AllMonthsWords: seq<string> := ["all months", "every month", "monthly breakdown"]
  const ThanksWords: seq<string> := ["thank", "thanks"]
  const ByeWords: seq<string> := ["bye", "goodbye", "see you"]
  const HelpWords: seq<string> := ["help", "what can", "capabilities", "what do you"]

  /** The greetings answered first. */
  predicate IsGreeting(query: string)
  {
    query == "hi" || query == "hello" || query == "hey" || query == "greetings" ||
    StartsWith(query, "hi ") || StartsWith(query, "hello ") || StartsWith(query, "hey ")
  }

  /** `monthly.monthly_predictions`, when the monthly store has it. */
  function PredictedMonths(ctx: Context): Option<seq<PredMonth>>
  {
    if ctx.monthly.Some? then ctx.monthly.value.months else None
  }

  /** `monthly?.summary`. */
  function StoredSummary(ctx: Context): Option<PredSummary>
  {
    if ctx.monthly.Some? then ctx.monthly.value.summary else None
  }

  /** `yearly?.predictions` is truthy: the yearly store has predictions, an
      empty array included. */
  predicate HasYearly(ctx: Context)
  {
    ctx.yearly.Some? && !ctx.yearly.value.predictions.NoYears?
  }

  /** The parts of the "available data" answer, in the order they are
      listed. */
  function DataParts(ctx: Context): (parts: seq<Part>)
    ensures |parts| <= 3
    ensures (exists n :: TxPart(n) in parts) <==> ctx.summary.Some? && ctx.summary.value.txCount > 0
    ensures MonthlyPart in parts <==> PredictedMonths(ctx).Some?
    ensures YearlyPart in parts <==> HasYearly(ctx)
  {
    (if ctx.summary.Some? && ctx.summary.value.txCount > 0 then [TxPart(ctx.summary.value.txCount)] else []) +
    (if PredictedMonths(ctx).Some? then [MonthlyPart] else []) +
    (if HasYearly(ctx) then [YearlyPart] else [])
  }

  /** The confidence the answer quotes: the monthly summary's, otherwise that
      of the first (or only) yearly prediction. */
  function ConfidenceOf(ctx: Context): Option<real>
  {
    var c := if StoredSummary(ctx).Some? then StoredSummary(ctx).value.confidence else None;
    if c.Some? then c
    else if HasYearly(ctx) then
      match ctx.yearly.value.predictions
      case YearList(years) => if |years| > 0 then years[0].confidence else None
      case YearObject(year) => year.confidence
      case NoYears => None
    else None
  }

  /** `Math.round`: the nearest integer, halves rounded up. */
  function RoundHalfUp(x: real): (n: int)
    ensures n as real - 0.5 <= x < n as real + 0.5
  {
    (x + 0.5).Floor
  }

  /** A mean over `n` months. */
  function Mean(total: real, n: nat): (m: real)
    requires n > 0
    ensures m * (n as real) == total
  {
    total / (n as real)
  }

  /** `s.months.reduce((a, b) => a + b.income, 0)`. */
  function IncomeSum(rows: seq<MonthRow>): real
  {
    if |rows| == 0 then 0.0 else IncomeSum(rows[..|rows| - 1]) + rows[|rows| - 1].income
  }

  /** The same over `b.expense`. */
  function ExpenseSum(rows: seq<MonthRow>): real
  {
    if |rows| == 0 then 0.0 else ExpenseSum(rows[..|rows| - 1]) + rows[|rows| - 1].expense
  }

  function OrZero(x: Option<real>): real
  {
    if x.Some? then x.value else 0.0
  }

  /** The answer to a question about months, when there is one: from the
      predicted months, otherwise from the latest month of history. */
  function MonthAnswer(query: string, ctx: Context): (r: Option<Reply>)
    ensures r.Some? ==> Grounded(r.value, ctx)
    ensures r.None? <==>
      ((PredictedMonths(ctx).None? || PredictedMonths(ctx).value == []) &&
       (ctx.summary.None? || ctx.summary.value.months == []))
  {
    var predicted := PredictedMonths(ctx);
    if predicted.Some? && |predicted.value| > 0 then
      var ms := predicted.value;
      if Mentions(query, LatestWords) then Some(LatestPredicted(ms[|ms| - 1]))
      else if Mentions(query, AllMonthsWords) then
        var sum := StoredSummary(ctx);
        Some(AllPredicted(|ms|, ms[0], ms[|ms| - 1],
          if sum.Some? then OrZero(sum.value.avgIncome) else 0.0,
          if sum.Some? then OrZero(sum.value.avgExpenses) else 0.0,
          if sum.Some? then OrZero(sum.value.avgSavings) else 0.0))
      else Some(LatestPredictedOf(ms[|ms| - 1], |ms|))
    else if ctx.summary.Some? && |ctx.summary.value.months| > 0 then
      var rows := ctx.summary.value.months;
      Some(LatestHistorical(rows[|rows| - 1]))
    else None
  }

  /** `monthly?.insights?.[0] || yearly?.insights?.[0]`: the first monthly
      insight when there is one, otherwise the first yearly one; its
      message. */
  function InsightOf(ctx: Context): Option<string>
  {
    if ctx.monthly.Some? && |ctx.monthly.value.insights| > 0 then Some(ctx.monthly.value.insights[0])
    else if ctx.yearly.Some? && |ctx.yearly.value.insights| > 0 then Some(ctx.yearly.value.insights[0])
    else None
  }

  /** An answer quotes only what its context holds: each figure, month or
      message in a reply is the one stored where the rule reads it, and a
      "nothing there" reply is given only when that part is missing. */
  predicate Grounded(r: Reply, ctx: Context)
  {
    var s := ctx.summary;
    var stored := StoredSummary(ctx);
    var predicted := PredictedMonths(ctx);
    match r
    case MonthlyReady(n) => predicted.Some? && n == |predicted.value|
    case MonthlyPending => predicted.None?
    case Available(parts) => |parts| > 0 && parts == DataParts(ctx)
    case NothingAvailable => DataParts(ctx) == []
    case TotalsOf(n, income, expense, net, top) =>
      s.Some? && n == s.value.txCount && income == s.value.totalIncome &&
      expense == s.value.totalExpense && net == s.value.net && top == s.value.topCategories
    case Averages(income, expense) =>
      s.Some? && |s.value.months| > 0 &&
      income * (|s.value.months| as real) == IncomeSum(s.value.months) &&
      expense * (|s.value.months| as real) == ExpenseSum(s.value.months)
    case AvgIncome(a) => stored.Some? && stored.value.avgIncome == Some(a)
    case AvgExpenses(a) => stored.Some? && stored.value.avgExpenses == Some(a)
    case AvgSavings(a) => stored.Some? && stored.value.avgSavings == Some(a)
    case ConfidenceIs(percent, level) =>
      ConfidenceOf(ctx).Some? &&
      level == Predictions.ConfidenceLabel(ConfidenceOf(ctx).value) &&
      percent as real - 0.5 <= ConfidenceOf(ctx).value * 100.0 < percent as real + 0.5
    case Annual(y) =>
      ctx.yearly.Some? && ctx.yearly.value.predictions.YearList? &&
      |ctx.yearly.value.predictions.years| > 0 && y == ctx.yearly.value.predictions.years[0]
    case TopList(top) => s.Some? && |top| > 0 && top == s.value.topCategories
    case NoCategories => s.None? || s.value.topCategories == []
    case RecentList(recent) =>
      s.Some? && 0 < |recent| <= 5 && |recent| <= |s.value.sampleRecent| &&
      recent == s.value.sampleRecent[..|recent|] &&
      (|recent| < 5 ==> recent == s.value.sampleRecent)
    case NoRecent => s.None? || s.value.sampleRecent == []
    case LatestPredicted(m) =>
      predicted.Some? && |predicted.value| > 0 && m == predicted.value[|predicted.value| - 1]
    case AllPredicted(n, first, last, _, _, _) =>
      predicted.Some? && n == |predicted.value| && n > 0 &&
      first == predicted.value[0] && last == predicted.value[n - 1]
    case LatestPredictedOf(m, n) =>
      predicted.Some? && n == |predicted.value| && n > 0 && m == predicted.value[n - 1]
    case LatestHistorical(row) =>
      (predicted.None? || predicted.value == []) &&
      s.Some? && |s.value.months| > 0 && row == s.value.months[|s.value.months| - 1]
    case InsightMessage(m) => m != "" && InsightOf(ctx) == Some(m)
    case NoTransactions => s.None? || s.value.txCount == 0
    case _ => true
  }

  /** The last rules: an insight with a message, thanks, goodbye, help, no
      transactions, and the default. */
  function Closing(query: string, ctx: Context): (r: Reply)
    ensures Grounded(r, ctx)
    ensures r.InsightMessage? <==> InsightOf(ctx).Some? && InsightOf(ctx).value != ""
  {
    var insight := InsightOf(ctx);
    if insight.Some? && insight.value != "" then InsightMessage(insight.value)
    else if Mentions(query, ThanksWords) || query == "ty" then Welcome
    else if Mentions(query, ByeWords) then Goodbye
    else if Mentions(query, HelpWords) then Help
    else if ctx.summary.None? || ctx.summary.value.txCount == 0 then NoTransactions
    else Fallback
  }

  /** The questions about categories, recent transactions and months. */
  function Listings(query: string, ctx: Context): (r: Reply)
    ensures Grounded(r, ctx)
  {
    var s := ctx.summary;
    if Mentions(query, CategoryWords) then
      if s.Some? && |s.value.topCategories| > 0 then TopList(s.value.topCategories) else NoCategories
    else if Mentions(query, RecentWords) then
      if s.Some? && |s.value.sampleRecent| > 0 then RecentList(Take(s.value.sampleRecent, 5)) else NoRecent
    else if Includes(query, "month") && MonthAnswer(query, ctx).Some? then MonthAnswer(query, ctx).value
    else Closing(query, ctx)
  }

  /** The questions about averages, confidence and the year; a question
      whose figure is not stored falls through to the next rule. */
  function Figures(query: string, ctx: Context): (r: Reply)
    ensures Grounded(r, ctx)
  {
    var s := ctx.summary;
    var stored := StoredSummary(ctx);
    if Includes(query, "average") && s.Some? && |s.value.months| > 0 then
      Averages(Mean(IncomeSum(s.value.months), |s.value.months|), Mean(ExpenseSum(s.value.months), |s.value.months|))
    else if Includes(query, "income") && stored.Some? && stored.value.avgIncome.Some? then
      AvgIncome(stored.value.avgIncome.value)
    else if Mentions(query, ExpenseWords) && stored.Some? && stored.value.avgExpenses.Some? then
      AvgExpenses(stored.value.avgExpenses.value)
    else if Includes(query, "saving") && stored.Some? && stored.value.avgSavings.Some? then
      AvgSavings(stored.value.avgSavings.value)
    else if Mentions(query, ConfidenceWords) && ConfidenceOf(ctx).Some? then
      var c := ConfidenceOf(ctx).value;
      ConfidenceIs(RoundHalfUp(c * 100.0), Predictions.ConfidenceLabel(c))
    else if Mentions(query, YearWords) && ctx.yearly.Some? && ctx.yearly.value.predictions.YearList?
      && |ctx.yearly.value.predictions.years| > 0 then
      Annual(ctx.yearly.value.predictions.years[0])
    else Listings(query, ctx)
  }

  /** The questions about the model, the monthly data, what data there is
      and the totals. */
  function Questions(query: string, ctx: Context): (r: Reply)
    ensures Grounded(r, ctx)
    ensures r != Greet
  {
    var s := ctx.summary;
    if Mentions(query, ModelWords) then ModelInfo
    else if Mentions(query, MonthlyDataWords) then
      if PredictedMonths(ctx).Some? then MonthlyReady(|PredictedMonths(ctx).value|) else MonthlyPending
    else if Mentions(query, DataWords) then
      if |DataParts(ctx)| > 0 then Available(DataParts(ctx)) else NothingAvailable
    else if s.Some? && Mentions(query, TotalWords) then
      TotalsOf(s.value.txCount, s.value.totalIncome, s.value.totalExpense, s.value.net, s.value.topCategories)
    else Figures(query, ctx)
  }

  /** `getAnswer(q)`, rule by rule in the order they are tried. Every answer
      is grounded in the context, and a greeting, and only a greeting, is
      answered with the greeting. An insight is only given with a message,
      so the answer is never empty. */
  function Answer(q: string, ctx: Context): (r: Reply)
    ensures Grounded(r, ctx)
    ensures r == Greet <==> IsGreeting(Normalize(q))
  {
    var query := Normalize(q);
    if IsGreeting(query) then Greet else Questions(query, ctx)
  }

  /** A question about the model that is not a greeting gets the model
      description, whatever data there is. */
  lemma ModelQuestion(q: string, ctx: Context)
    requires !IsGreeting(Normalize(q)) && Mentions(Normalize(q), ModelWords)
    ensures Answer(q, ctx) == ModelInfo
  {
  }

  /** A question about monthly data (not a greeting, not about the model)
      says how many months are predicted when the predictions exist, and
      that they are pending otherwise. */
  lemma MonthlyDataAnswer(q: string, ctx: Context)
    requires var query := Normalize(q);
      !IsGreeting(query) && !Mentions(query, ModelWords) && Mentions(query, MonthlyDataWords)
    ensures PredictedMonths(ctx).Some? ==> Answer(q, ctx) == MonthlyReady(|PredictedMonths(ctx).value|)
    ensures PredictedMonths(ctx).None? ==> Answer(q, ctx) == MonthlyPending
  {
  }

  /** A query of at most three characters that is not a greeting is too
      short for any question word: it goes straight to the last rules. */
  lemma ShortQueryCloses(query: string, ctx: Context)
    requires |query| <= 3
    ensures Listings(query, ctx) == Closing(query, ctx)
    ensures Figures(query, ctx) == Closing(query, ctx)
    ensures Questions(query, ctx) == Closing(query, ctx)
  {
    ShortMentionsNothing(query, CategoryWords);
    ShortMentionsNothing(query, RecentWords);
    ShortMentionsNothing(query, ["month"]);
    assert !Includes(query, "month") by {
      assert ["month"][0] == "month";
    }
    assert Listings(query, ctx) == Closing(query, ctx);
    ShortMentionsNothing(query, ["average"]);
    ShortMentionsNothing(query, ["income"]);
    ShortMentionsNothing(query, ExpenseWords);
    ShortMentionsNothing(query, ["saving"]);
    ShortMentionsNothing(query, ConfidenceWords);
    ShortMentionsNothing(query, YearWords);
    assert !Includes(query, "average") by { assert ["average"][0] == "average"; }
    assert !Includes(query, "income") by { assert ["income"][0] == "income"; }
    assert !Includes(query, "saving") by { assert ["saving"][0] == "saving"; }
    assert Figures(query, ctx) == Closing(query, ctx);
    ShortMentionsNothing(query, ModelWords);
    ShortMentionsNothing(query, MonthlyDataWords);
    ShortMentionsNothing(query, DataWords);
    ShortMentionsNothing(query, TotalWords);
  }

  /** "ty" (in any case, with any surrounding spaces) is answered with the
      insight when one has a message, and otherwise with "you're welcome". */
  lemma ThankYou(q: string, ctx: Context)
    requires Normalize(q) == "ty"
    ensures Answer(q, ctx) ==
      if InsightOf(ctx).Some? && InsightOf(ctx).value != "" then InsightMessage(InsightOf(ctx).value) else Welcome
  {
    var query := Normalize(q);
    TyNoGreeting(query);
    ShortQueryCloses(query, ctx);
  }

  lemma TyNoGreeting(query: string)
    requires query == "ty"
    ensures !IsGreeting(query)
  {
    assert !StartsWith(query, "hi ");
  }

  // ---------------------------------------------------------------------
  // The conversation
  // ---------------------------------------------------------------------

  /** A line of the conversation: what the user sent, or the answer. */
  datatype Message = UserMessage(text: string) | BotMessage(reply: Reply)

  /** The chat panel's state: the messages, the input box, and whether an
      answer is on its way. */
  class ChatLog {
    var messages: seq<Message>
    var input: string
    var thinking: bool

    constructor()
      ensures messages == [] && input == "" && !thinking
    {
      messages := [];
      input := "";
      thinking := false;
    }

    /** Typing into the input box. */
    method SetInput(text: string)
      modifies this
      ensures input == text && messages == old(messages) && thinking == old(thinking)
    {
      input := text;
    }

    /** The first half of `handleSend`: blank input does nothing; otherwise
        the trimmed text is added as the user's message, the box is cleared
        and the answer is awaited. The question to answer is returned. */
    method Send() returns (question: Option<string>)
      modifies this
      ensures Trim(old(input)) == "" ==>
        question.None? && messages == old(messages) && input == old(input) && thinking == old(thinking)
      ensures Trim(old(input)) != "" ==>
        question == Some(Trim(old(input))) && messages == old(messages) + [UserMessage(Trim(old(input)))] &&
        input == "" && thinking
    {
      var text := Trim(input);
      if text == "" {
        question := None;
        return;
      }
      messages := messages + [UserMessage(text)];
      input := "";
      thinking := true;
      question := Some(text);
    }

    /** The delayed half of `handleSend`: the answer is added and the wait
        ends. The `answer || default` fallback is not needed: no answer is
        empty. */
    method Deliver(question: string, ctx: Context)
      modifies this
      ensures messages == old(messages) + [BotMessage(Answer(question, ctx))]
      ensures !thinking && input == old(input)
    {
      messages := messages + [BotMessage(Answer(question, ctx))];
      thinking := false;
    }
  }

  /** Sending a text and waiting for the answer: blank text adds nothing,
      anything else adds exactly the question and its answer. */
  method Exchange(log: ChatLog, ctx: Context) returns (added: seq<Message>)
    modifies log
    ensures log.messages == old(log.messages) + added
    ensures Trim(old(log.input)) == "" ==> added == []
    ensures Trim(old(log.input)) != "" ==>
      added == [UserMessage(Trim(old(log.input))), BotMessage(Answer(Trim(old(log.input)), ctx))]
    ensures !log.thinking || (Trim(old(log.input)) == "" && old(log.thinking))
  {
    var question := log.Send();
    if question.Some? {
      log.Deliver(question.value, ctx);
      added := [UserMessage(question.value), BotMessage(Answer(question.value, ctx))];
    } else {
      added := [];
    }
  }
}
