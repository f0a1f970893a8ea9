/**
 * The forecaster: transactions are grouped into calendar-month aggregates,
 * next month's expenses and income are predicted as the mean of the monthly
 * series scaled by a dampened recent-versus-older trend, savings are what is
 * left of income, and a short list of insights compares the prediction with
 * the savings-rate and budget thresholds.
 */
module Forecast {
  import opened Common
  import opened Text
  import Sorting

  // ---------------------------------------------------------------------
  // Monthly aggregation (prepareHistoricalData)

  /** The `YYYY-MM` key a transaction is filed under. */
  datatype MonthKey = MonthKey(year: int, month: int)

  /** `{income, expenses, categories}` for one month; `categories` holds the
      expense total of every category that had an expense that month. */
  datatype MonthAggregate = MonthAggregate(income: real, expenses: real, categories: map<string, real>)

  const EmptyAggregate := MonthAggregate(0.0, 0.0, map[])

  function MonthOf(t: Transaction): MonthKey
    requires ParseIso(t.date).Some?
  {
    MonthKey(DateOf(t).year, DateOf(t).month)
  }

  /** A transaction together with the month key its date gives. */
  datatype Filed = Filed(month: MonthKey, tx: Transaction)

  function FileAll(txs: seq<Transaction>): (es: seq<Filed>)
    requires WellDated(txs)
    ensures |es| == |txs|
    ensures forall i :: 0 <= i < |txs| ==> es[i] == Filed(MonthOf(txs[i]), txs[i])
  {
    seq(|txs|, i requires 0 <= i < |txs| => Filed(MonthOf(txs[i]), txs[i]))
  }

  /** The month of every transaction, in order. */
  function MonthsOf(es: seq<Filed>): (ms: seq<MonthKey>)
    ensures |ms| == |es| && forall i :: 0 <= i < |es| ==> ms[i] == es[i].month
  {
    seq(|es|, i requires 0 <= i < |es| => es[i].month)
  }

  /** `categories[c] || 0`. */
  function Tally(m: map<string, real>, c: string): real
  {
    if c in m then m[c] else 0.0
  }

  /** Files one transaction into its month's aggregate: income adds to
      `income`, every other type to `expenses` and to its category. */
  function Record(a: MonthAggregate, t: Transaction): (r: MonthAggregate)
    ensures r.income + r.expenses == a.income + a.expenses + t.amount
  {
    if t.kind == "income" then a.(income := a.income + t.amount)
    else a.(expenses := a.expenses + t.amount,
            categories := a.categories[t.category := Tally(a.categories, t.category) + t.amount])
  }

  /** What filing one transaction adds to each total of a month. */
  lemma RecordAdds(a: MonthAggregate, t: Transaction, c: string)
    ensures Record(a, t).income == a.income + (if t.kind == "income" then t.amount else 0.0)
    ensures Record(a, t).expenses == a.expenses + (if t.kind != "income" then t.amount else 0.0)
    ensures Tally(Record(a, t).categories, c)
      == Tally(a.categories, c) + (if t.kind != "income" && t.category == c then t.amount else 0.0)
  {
  }

  /** The `monthlyData` object: its keys in insertion order (month keys are
      not integer-like, so `Object.values` follows insertion order) and the
      aggregate under each. */
  datatype Table = Table(keys: seq<MonthKey>, data: map<MonthKey, MonthAggregate>)

  ghost predicate TableOk(tab: Table)
  {
    (forall i, j :: 0 <= i < j < |tab.keys| ==> tab.keys[i] != tab.keys[j]) &&
    (forall k :: k in tab.data <==> k in tab.keys)
  }

  /** The aggregate of month `k`, empty when the month has none. */
  function Lookup(tab: Table, k: MonthKey): MonthAggregate
  {
    if k in tab.data then tab.data[k] else EmptyAggregate
  }

  function AddTo(tab: Table, e: Filed): Table
  {
    Table(if e.month in tab.data then tab.keys else tab.keys + [e.month],
          tab.data[e.month := Record(Lookup(tab, e.month), e.tx)])
  }

  /** The table after the `forEach` over the transactions. */
  function Tabulate(es: seq<Filed>): (tab: Table)
    ensures TableOk(tab)
  {
    if |es| == 0 then Table([], map[])
    else AddTo(Tabulate(es[..|es| - 1]), es[|es| - 1])
  }

  lemma LookupAddTo(tab: Table, e: Filed, k: MonthKey)
    ensures Lookup(AddTo(tab, e), k) == if e.month == k then Record(Lookup(tab, k), e.tx) else Lookup(tab, k)
  {
  }

  /** `Object.values(monthlyData)`. */
  function Values(tab: Table): (v: seq<MonthAggregate>)
    requires TableOk(tab)
    ensures |v| == |tab.keys|
  {
    seq(|tab.keys|, i requires 0 <= i < |tab.keys| => tab.data[tab.keys[i]])
  }

  /** The monthly series the predictors read. */
  function HistoryOf(txs: seq<Transaction>): seq<MonthAggregate>
    requires WellDated(txs)
  {
    Values(Tabulate(FileAll(txs)))
  }

  function ConstantKey(a: MonthAggregate): real { 0.0 }

  lemma TabulateAt(es: seq<Filed>, i: nat)
    requires i < |es|
    ensures Tabulate(es[..i + 1]) == AddTo(Tabulate(es[..i]), es[i])
  {
    assert es[..i + 1][..i] == es[..i];
  }

  /** What one turn of the `forEach` leaves in `monthlyData`, written as the
      loop writes it: an empty aggregate for a new month, then the record. */
  lemma AddToSteps(tab: Table, e: Filed, keys: seq<MonthKey>, data: map<MonthKey, MonthAggregate>)
    requires e.month in tab.data ==> keys == tab.keys && data == tab.data
    requires e.month !in tab.data ==>
      keys == tab.keys + [e.month] && data == tab.data[e.month := EmptyAggregate]
    ensures e.month in data
    ensures Table(keys, data[e.month := Record(data[e.month], e.tx)]) == AddTo(tab, e)
  {
    var k := e.month;
    assert data[k] == Lookup(tab, k);
    var recorded := Record(Lookup(tab, k), e.tx);
    if k !in tab.data {
      assert data[k := recorded] == tab.data[k := recorded];
    }
  }

  /** `prepareHistoricalData`. The closing `sort((a, b) => a.month - b.month)`
      compares a field the aggregates do not have: every comparison is NaN,
      which the sort treats as "equal", so the stable sort keeps the order. */
  method PrepareHistoricalData(txs: seq<Transaction>) returns (history: seq<MonthAggregate>)
    requires WellDated(txs)
    ensures history == HistoryOf(txs)
  {
    ghost var es := FileAll(txs);
    var keys: seq<MonthKey> := [];
    var monthlyData: map<MonthKey, MonthAggregate> := map[];
    for i := 0 to |txs|
      invariant Table(keys, monthlyData) == Tabulate(es[..i])
    {
      var t := txs[i];
      var k := MonthOf(t);
      ghost var before := Table(keys, monthlyData);
      if k !in monthlyData {
        keys := keys + [k];
        monthlyData := monthlyData[k := EmptyAggregate];
      }
      AddToSteps(before, Filed(k, t), keys, monthlyData);
      monthlyData := monthlyData[k := Record(monthlyData[k], t)];
      TabulateAt(es, i);
    }
    assert es[..|txs|] == es;
    var values := seq(|keys|, j requires 0 <= j < |keys| => monthlyData[keys[j]]);
    assert values == Values(Tabulate(es));
    history := Sorting.SortDesc(values, ConstantKey);
    Sorting.SortDescConstant(values, ConstantKey, 0.0);
  }

  // --- what the aggregation computes

  /** The table's keys are the distinct months, in order of first appearance. */
  lemma {:induction false} TabulateKeys(es: seq<Filed>)
    ensures Tabulate(es).keys == Dedup(MonthsOf(es))
  {
    if |es| > 0 {
      TabulateKeys(es[..|es| - 1]);
      assert MonthsOf(es)[..|es| - 1] == MonthsOf(es[..|es| - 1]);
    }
  }

  /** The transactions filed under month `k`, in order. */
  function InMonth(es: seq<Filed>, k: MonthKey): (r: seq<Transaction>)
    ensures |r| <= |es|
  {
    if |es| == 0 then []
    else
      var e := es[|es| - 1];
      InMonth(es[..|es| - 1], k) + (if e.month == k then [e.tx] else [])
  }

  /** The transactions of category `c`, in order. */
  function InCategory(txs: seq<Transaction>, c: string): (r: seq<Transaction>)
    ensures forall t :: t in r ==> t in txs && t.category == c
  {
    if |txs| == 0 then []
    else
      var t := txs[|txs| - 1];
      InCategory(txs[..|txs| - 1], c) + (if t.category == c then [t] else [])
  }

  /** Adding one transaction to a month's list adds its amount to exactly
      the totals `Record` adds it to. */
  lemma MonthTotalsSnoc(m: seq<Transaction>, t: Transaction, c: string)
    ensures TotalOfKind(m + [t], "income")
      == TotalOfKind(m, "income") + (if t.kind == "income" then t.amount else 0.0)
    ensures AmountTotal(NotOfKind(m + [t], "income"))
      == AmountTotal(NotOfKind(m, "income")) + (if t.kind != "income" then t.amount else 0.0)
    ensures AmountTotal(InCategory(NotOfKind(m + [t], "income"), c))
      == AmountTotal(InCategory(NotOfKind(m, "income"), c))
         + (if t.kind != "income" && t.category == c then t.amount else 0.0)
  {
    assert (m + [t])[..|m|] == m;
    var inc := OfKind(m, "income");
    var rest := NotOfKind(m, "income");
    if t.kind == "income" {
      assert OfKind(m + [t], "income") == inc + [t];
      AmountTotalSnoc(inc, t);
      assert NotOfKind(m + [t], "income") == rest;
    } else {
      assert OfKind(m + [t], "income") == inc;
      assert NotOfKind(m + [t], "income") == rest + [t];
      AmountTotalSnoc(rest, t);
      var cat := InCategory(rest, c);
      assert (rest + [t])[..|rest|] == rest;
      if t.category == c {
        assert InCategory(rest + [t], c) == cat + [t];
        AmountTotalSnoc(cat, t);
      } else {
        assert InCategory(rest + [t], c) == cat;
      }
    }
  }

  /** One transaction more for month `k` in the table and in the list. */
  lemma TabulateStep(es: seq<Filed>, k: MonthKey)
    requires |es| > 0
    ensures var e := es[|es| - 1];
      Lookup(Tabulate(es), k)
        == if e.month == k then Record(Lookup(Tabulate(es[..|es| - 1]), k), e.tx)
           else Lookup(Tabulate(es[..|es| - 1]), k)
    ensures var e := es[|es| - 1];
      InMonth(es, k) == InMonth(es[..|es| - 1], k) + (if e.month == k then [e.tx] else [])
  {
    var init := es[..|es| - 1];
    assert Tabulate(es) == AddTo(Tabulate(init), es[|es| - 1]);
    LookupAddTo(Tabulate(init), es[|es| - 1], k);
  }

  /** `a` holds, for the transactions `ts` of one month, their income
      total, the total of everything else, and category `c`'s total of
      everything else. */
  ghost predicate Totals(a: MonthAggregate, ts: seq<Transaction>, c: string)
  {
    a.income == TotalOfKind(ts, "income") &&
    a.expenses == AmountTotal(NotOfKind(ts, "income")) &&
    Tally(a.categories, c) == AmountTotal(InCategory(NotOfKind(ts, "income"), c))
  }

  lemma TotalsSnoc(a: MonthAggregate, ts: seq<Transaction>, t: Transaction, c: string)
    requires Totals(a, ts, c)
    ensures Totals(Record(a, t), ts + [t], c)
  {
    var r := Record(a, t);
    assert r.income == TotalOfKind(ts + [t], "income") by {
      RecordAdds(a, t, c);
      MonthTotalsSnoc(ts, t, c);
    }
    assert r.expenses == AmountTotal(NotOfKind(ts + [t], "income")) by {
      RecordAdds(a, t, c);
      MonthTotalsSnoc(ts, t, c);
    }
    assert Tally(r.categories, c) == AmountTotal(InCategory(NotOfKind(ts + [t], "income"), c)) by {
      RecordAdds(a, t, c);
      MonthTotalsSnoc(ts, t, c);
    }
  }

  /** Month `k`'s aggregate holds the totals of the transactions filed in
      that month. */
  lemma {:induction false} TabulateTotals(es: seq<Filed>, k: MonthKey, c: string)
    ensures Totals(Lookup(Tabulate(es), k), InMonth(es, k), c)
  {
    if |es| > 0 {
      var init := es[..|es| - 1];
      var e := es[|es| - 1];
      var m := InMonth(init, k);
      TabulateTotals(init, k, c);
      TabulateStep(es, k);
      if e.month == k {
        TotalsSnoc(Lookup(Tabulate(init), k), m, e.tx, c);
      } else {
        assert m + [] == m;
      }
    }
  }

  /** The aggregates are listed one per distinct month, in order of first
      appearance, each with that month's totals. */
  lemma HistoryByMonth(txs: seq<Transaction>, i: nat, c: string)
    requires WellDated(txs) && i < |HistoryOf(txs)|
    ensures |HistoryOf(txs)| == |Dedup(MonthsOf(FileAll(txs)))|
    ensures var k := Dedup(MonthsOf(FileAll(txs)))[i];
      var es := FileAll(txs);
      var a := HistoryOf(txs)[i];
      a.income == TotalOfKind(InMonth(es, k), "income") &&
      a.expenses == AmountTotal(NotOfKind(InMonth(es, k), "income")) &&
      Tally(a.categories, c) == AmountTotal(InCategory(NotOfKind(InMonth(es, k), "income"), c))
  {
    TabulateKeys(FileAll(txs));
    TabulateTotals(FileAll(txs), Dedup(MonthsOf(FileAll(txs)))[i], c);
  }

  // --- conservation: the aggregates account for every amount once

  function Volume(h: seq<MonthAggregate>): real
  {
    if |h| == 0 then 0.0 else Volume(h[..|h| - 1]) + h[|h| - 1].income + h[|h| - 1].expenses
  }

  lemma {:induction false} VolumeUpdate(h: seq<MonthAggregate>, i: nat, a: MonthAggregate)
    requires i < |h|
    ensures Volume(h[i := a]) == Volume(h) - h[i].income - h[i].expenses + a.income + a.expenses
  {
    var n := |h| - 1;
    if i < n {
      VolumeUpdate(h[..n], i, a);
      assert h[i := a][..n] == h[..n][i := a];
    } else {
      assert h[i := a][..n] == h[..n];
    }
  }

  lemma VolumeSnoc(h: seq<MonthAggregate>, a: MonthAggregate)
    ensures Volume(h + [a]) == Volume(h) + a.income + a.expenses
  {
    assert (h + [a])[..|h|] == h;
  }

  /** Updating a month already present replaces its value in place. */
  lemma ValuesReplace(tab: Table, idx: nat, a: MonthAggregate)
    requires TableOk(tab) && idx < |tab.keys|
    ensures TableOk(Table(tab.keys, tab.data[tab.keys[idx] := a]))
    ensures Values(Table(tab.keys, tab.data[tab.keys[idx] := a])) == Values(tab)[idx := a]
  {
  }

  /** A new month goes at the end. */
  lemma ValuesAppend(tab: Table, k: MonthKey, a: MonthAggregate)
    requires TableOk(tab) && k !in tab.data
    ensures TableOk(Table(tab.keys + [k], tab.data[k := a]))
    ensures Values(Table(tab.keys + [k], tab.data[k := a])) == Values(tab) + [a]
  {
  }

  /** One `AddTo` changes the volume of the values by the amount filed. */
  lemma ValuesAddTo(tab: Table, e: Filed)
    requires TableOk(tab)
    ensures TableOk(AddTo(tab, e))
    ensures Volume(Values(AddTo(tab, e))) == Volume(Values(tab)) + e.tx.amount
  {
    var k := e.month;
    var a := Record(Lookup(tab, k), e.tx);
    if k in tab.data {
      var idx :| 0 <= idx < |tab.keys| && tab.keys[idx] == k;
      ValuesReplace(tab, idx, a);
      VolumeUpdate(Values(tab), idx, a);
    } else {
      ValuesAppend(tab, k, a);
      VolumeSnoc(Values(tab), a);
    }
  }

  /** The transactions of the entries, in order. */
  function Txs(es: seq<Filed>): (r: seq<Transaction>)
    ensures |r| == |es| && forall i :: 0 <= i < |es| ==> r[i] == es[i].tx
  {
    seq(|es|, i requires 0 <= i < |es| => es[i].tx)
  }

  lemma TxsSnoc(es: seq<Filed>)
    requires |es| > 0
    ensures Txs(es) == Txs(es[..|es| - 1]) + [es[|es| - 1].tx]
  {
  }

  lemma {:induction false} TabulateConserves(es: seq<Filed>)
    ensures Volume(Values(Tabulate(es))) == AmountTotal(Txs(es))
  {
    if |es| > 0 {
      var n := |es| - 1;
      TabulateConserves(es[..n]);
      ValuesAddTo(Tabulate(es[..n]), es[n]);
      TxsSnoc(es);
      AmountTotalSnoc(Txs(es[..n]), es[n].tx);
    }
  }

  /** Every amount lands in exactly one month, as income or as expense: the
      aggregates' income and expenses add up to the total of all amounts. */
  lemma HistoryConserves(txs: seq<Transaction>)
    requires WellDated(txs)
    ensures Volume(HistoryOf(txs)) == AmountTotal(txs)
  {
    var es := FileAll(txs);
    TabulateConserves(es);
    assert Txs(es) == txs;
  }

  // ---------------------------------------------------------------------
  // Predictors

  function Mean(v: seq<real>): real
    requires |v| > 0
  {
    Sum(v) / (|v| as real)
  }

  /** `slice(-3)`: the last three values, or all of them. */
  function Recent(v: seq<real>): (r: seq<real>)
    ensures |r| == if |v| < 3 then |v| else 3
  {
    if |v| < 3 then v else v[|v| - 3..]
  }

  /** `slice(-6, -3)`: the (up to) three values before the last three. */
  function Older(v: seq<real>): (r: seq<real>)
    ensures |r| == if |v| <= 3 then 0 else if |v| <= 6 then |v| - 3 else 3
  {
    if |v| <= 3 then [] else if |v| <= 6 then v[..|v| - 3] else v[|v| - 6..|v| - 3]
  }

  /** `(recentAvg - olderAvg) / olderAvg` once both windows have values,
      else 0. The division is not guarded: an older mean of 0 gives
      Infinity, or NaN when the recent mean is 0 too. */
  function Trend(v: seq<real>): JsNum
  {
    if |v| >= 2 && |Older(v)| > 0 then
      var ra := Mean(Recent(v));
      var oa := Mean(Older(v));
      Div(Fin(ra - oa), Fin(oa))
    else Fin(0.0)
  }

  /** `Math.max(0, Math.round(mean * (1 + trend * weight)))`, or 0 for an
      empty series. */
  function PredictSeries(v: seq<real>, weight: real): JsNum
  {
    if |v| == 0 then Fin(0.0)
    else Max(Fin(0.0), Round(Mul(Fin(Mean(v)), Add(Fin(1.0), Mul(Trend(v), Fin(weight))))))
  }

  function ExpenseSeries(h: seq<MonthAggregate>): (v: seq<real>)
    ensures |v| == |h| && forall i :: 0 <= i < |h| ==> v[i] == h[i].expenses
  {
    seq(|h|, i requires 0 <= i < |h| => h[i].expenses)
  }

  function IncomeSeries(h: seq<MonthAggregate>): (v: seq<real>)
    ensures |v| == |h| && forall i :: 0 <= i < |h| ==> v[i] == h[i].income
  {
    seq(|h|, i requires 0 <= i < |h| => h[i].income)
  }

  /** `ExpensePredictor.predict`: trend weight 0.5. */
  function PredictExpenses(h: seq<MonthAggregate>): JsNum
  {
    PredictSeries(ExpenseSeries(h), 0.5)
  }

  /** `IncomePredictor.predict`: trend weight 0.3. */
  function PredictIncome(h: seq<MonthAggregate>): JsNum
  {
    PredictSeries(IncomeSeries(h), 0.3)
  }

  /** `SavingsPredictor.predict`: `Math.max(0, income - expenses)`. */
  function PredictSavings(income: JsNum, expenses: JsNum): (s: JsNum)
    ensures income.Fin? && expenses.Fin? ==>
      s.Fin? && s.r >= 0.0 && (s.r == income.r - expenses.r <==> income.r >= expenses.r)
    ensures income.Fin? && expenses.Fin? && income.r < expenses.r ==> s == Fin(0.0)
  {
    Max(Fin(0.0), Sub(income, expenses))
  }

  /** The older window is non-empty exactly from four months on, so only
      then can the trend be anything but 0. */
  lemma OlderWindow(v: seq<real>)
    ensures |Older(v)| > 0 <==> |v| >= 4
    ensures |v| < 4 ==> Trend(v) == Fin(0.0)
  {
  }

  lemma RoundInteger(x: real)
    ensures Round(Fin(x)).Fin? && IsInteger(Round(Fin(x)).r)
    ensures x - 0.5 < Round(Fin(x)).r <= x + 0.5
  {
  }

  /** An empty series predicts 0; otherwise, whenever the trend division has
      a non-zero divisor (always so below four months), the prediction is a
      non-negative whole number. */
  lemma PredictSeriesWhole(v: seq<real>, weight: real)
    requires |v| < 4 || Mean(Older(v)) != 0.0
    ensures |v| == 0 ==> PredictSeries(v, weight) == Fin(0.0)
    ensures PredictSeries(v, weight).Fin?
    ensures PredictSeries(v, weight).r >= 0.0 && IsInteger(PredictSeries(v, weight).r)
  {
    if |v| > 0 {
      OlderWindow(v);
      var p := Mul(Fin(Mean(v)), Add(Fin(1.0), Mul(Trend(v), Fin(weight))));
      assert p.Fin?;
      RoundInteger(p.r);
    }
  }

  /** With one to three months there is no trend: the prediction is the
      rounded mean. */
  lemma PredictShortHistory(v: seq<real>, weight: real)
    requires 1 <= |v| <= 3
    ensures PredictSeries(v, weight) == Max(Fin(0.0), Round(Fin(Mean(v))))
  {
    OlderWindow(v);
  }

  /** Three months of 1000 predict 1000. */
  lemma PredictFlatThreeMonths(weight: real)
    ensures PredictSeries([1000.0, 1000.0, 1000.0], weight) == Fin(1000.0)
  {
    var v := [1000.0, 1000.0, 1000.0];
    PredictShortHistory(v, weight);
    assert Sum([1000.0]) == 1000.0 by { assert [1000.0][..0] == []; }
    assert Sum([1000.0, 1000.0]) == 2000.0 by { assert [1000.0, 1000.0][..1] == [1000.0]; }
    assert Sum(v) == 3000.0 by { assert v[..2] == [1000.0, 1000.0]; }
  }

  /** The unguarded trend: from four months on, an older window that averages
      0 gives an infinite prediction when the recent window averages more,
      and NaN when it averages 0 as well. */
  lemma PredictZeroOlderWindow(v: seq<real>, weight: real)
    requires |v| >= 4 && Mean(Older(v)) == 0.0 && weight > 0.0
    ensures Mean(Recent(v)) > 0.0 && Mean(v) > 0.0 ==> PredictSeries(v, weight) == PosInf
    ensures Mean(Recent(v)) == 0.0 ==> PredictSeries(v, weight) == NaN
  {
    OlderWindow(v);
  }

  /** `calculateConfidence`: 0.3 below two months, 0.6 below six, else 0.85. */
  function Confidence(months: nat): (c: real)
    ensures 0.0 <= c <= 1.0
  {
    if months < 2 then 0.3 else if months < 6 then 0.6 else 0.85
  }

  /** More months never lower the confidence. */
  lemma ConfidenceMonotone(m: nat, n: nat)
    requires m <= n
    ensures Confidence(m) <= Confidence(n)
    ensures Confidence(n) == 0.85 <==> n >= 6
  {
  }

  /** `getNextMonth` with today's date passed in: the month after today's. */
  function NextMonth(today: CalDate): (k: MonthKey)
    requires 1 <= today.month <= 12
    ensures 1 <= k.month <= 12
    ensures k.year * 12 + k.month == today.year * 12 + today.month + 1
  {
    if today.month == 12 then MonthKey(today.year + 1, 1) else MonthKey(today.year, today.month + 1)
  }

  // ---------------------------------------------------------------------
  // Insights (generateInsights)

  datatype InsightKind = Positive | Warning | Danger

  /** What each insight reports; the message text carries these numbers. */
  datatype Note =
    | ExcellentSavingsRate(rate: JsNum)
    | LowSavingsRate(rate: JsNum)
    | ExceedsBudget(expenses: JsNum, overrun: JsNum)
    | UsesBudget(utilisation: JsNum)

  datatype Insight = Insight(kind: InsightKind, note: Note)

  predicate IsSavingsNote(n: Note) { n.ExcellentSavingsRate? || n.LowSavingsRate? }

  /** `(savings / income) * 100`. */
  function SavingsRate(savings: JsNum, income: JsNum): JsNum
  {
    Mul(Div(savings, income), Fin(100.0))
  }

  function BudgetTotal(budgets: seq<Budget>): real
  {
    if |budgets| == 0 then 0.0 else BudgetTotal(budgets[..|budgets| - 1]) + budgets[|budgets| - 1].budget
  }

  /** `(expenses / totalBudget) * 100`. */
  function Utilisation(expenses: JsNum, budgets: seq<Budget>): JsNum
  {
    Mul(Div(expenses, Fin(BudgetTotal(budgets))), Fin(100.0))
  }

  /** The insight list for a savings rate and a budget utilisation: at most
      one savings insight (positive above 20, warning below 10), then at most
      one budget insight (danger above 100 with the overrun, warning above
      90); comparisons with NaN are false, so a NaN rate adds nothing. */
  predicate InsightsMatch(ins: seq<Insight>, rate: JsNum, utilisation: JsNum, expenses: JsNum)
  {
    var hasSavings := Gt(rate, Fin(20.0)) || Gt(Fin(10.0), rate);
    var hasBudget := Gt(utilisation, Fin(90.0));
    |ins| == (if hasSavings then 1 else 0) + (if hasBudget then 1 else 0) &&
    (Gt(rate, Fin(20.0)) ==> ins[0] == Insight(Positive, ExcellentSavingsRate(rate))) &&
    (!Gt(rate, Fin(20.0)) && Gt(Fin(10.0), rate) ==> ins[0] == Insight(Warning, LowSavingsRate(rate))) &&
    (hasSavings ==> IsSavingsNote(ins[0].note)) &&
    (Gt(utilisation, Fin(100.0)) ==>
      ins[|ins| - 1] == Insight(Danger, ExceedsBudget(expenses, Sub(utilisation, Fin(100.0))))) &&
    (!Gt(utilisation, Fin(100.0)) && hasBudget ==>
      ins[|ins| - 1] == Insight(Warning, UsesBudget(utilisation))) &&
    (hasBudget ==> !IsSavingsNote(ins[|ins| - 1].note))
  }

  /** The insight list is determined by the rate, the utilisation and the
      expense figure. */
  lemma InsightsUnique(a: seq<Insight>, b: seq<Insight>, rate: JsNum, utilisation: JsNum, expenses: JsNum)
    requires InsightsMatch(a, rate, utilisation, expenses)
    requires InsightsMatch(b, rate, utilisation, expenses)
    ensures a == b
  {
    if |a| == 2 {
      assert a == [a[0], a[1]] && b == [b[0], b[1]];
    } else if |a| == 1 {
      assert a == [a[0]] && b == [b[0]];
    }
  }

  /** The savings half of the list: at most one insight about the rate. */
  predicate SavingsInsight(s: seq<Insight>, rate: JsNum)
  {
    |s| <= 1 &&
    (|s| == 1 <==> Gt(rate, Fin(20.0)) || Gt(Fin(10.0), rate)) &&
    (Gt(rate, Fin(20.0)) ==> s == [Insight(Positive, ExcellentSavingsRate(rate))]) &&
    (!Gt(rate, Fin(20.0)) && Gt(Fin(10.0), rate) ==> s == [Insight(Warning, LowSavingsRate(rate))])
  }

  /** The budget half of the list: at most one insight about utilisation. */
  predicate BudgetInsight(b: seq<Insight>, utilisation: JsNum, expenses: JsNum)
  {
    |b| <= 1 &&
    (|b| == 1 <==> Gt(utilisation, Fin(90.0))) &&
    (Gt(utilisation, Fin(100.0)) ==>
      b == [Insight(Danger, ExceedsBudget(expenses, Sub(utilisation, Fin(100.0))))]) &&
    (!Gt(utilisation, Fin(100.0)) && Gt(utilisation, Fin(90.0)) ==>
      b == [Insight(Warning, UsesBudget(utilisation))])
  }

  /** The two halves together give the whole list. */
  lemma InsightsJoin(s: seq<Insight>, b: seq<Insight>, rate: JsNum, utilisation: JsNum, expenses: JsNum)
    requires SavingsInsight(s, rate) && BudgetInsight(b, utilisation, expenses)
    ensures InsightsMatch(s + b, rate, utilisation, expenses)
  {
    var ins := s + b;
    if |b| == 1 {
      assert ins[|ins| - 1] == b[0];
      assert Gt(utilisation, Fin(100.0)) ==> Gt(utilisation, Fin(90.0));
    }
    if |s| == 1 {
      assert ins[0] == s[0];
    }
  }

  /** `budgets.reduce((sum, b) => sum + b.budget, 0)`. */
  method SumBudgets(budgets: seq<Budget>) returns (total: real)
    ensures total == BudgetTotal(budgets)
  {
    total := 0.0;
    for i := 0 to |budgets|
      invariant total == BudgetTotal(budgets[..i])
    {
      total := total + budgets[i].budget;
      assert budgets[..i + 1][..i] == budgets[..i];
    }
    assert budgets[..|budgets|] == budgets;
  }

  /** `generateInsights`. */
  method GenerateInsights(expenses: JsNum, income: JsNum, savings: JsNum, budgets: seq<Budget>)
    returns (insights: seq<Insight>)
    ensures InsightsMatch(insights, SavingsRate(savings, income), Utilisation(expenses, budgets), expenses)
  {
    insights := [];
    var savingsRate := SavingsRate(savings, income);
    if Gt(savingsRate, Fin(20.0)) {
      insights := insights + [Insight(Positive, ExcellentSavingsRate(savingsRate))];
    } else if Gt(Fin(10.0), savingsRate) {
      insights := insights + [Insight(Warning, LowSavingsRate(savingsRate))];
    }
    ghost var head := insights;
    ghost var tail: seq<Insight> := [];
    assert SavingsInsight(head, savingsRate);
    var totalBudget := SumBudgets(budgets);
    var budgetUtilization := Mul(Div(expenses, Fin(totalBudget)), Fin(100.0));
    if Gt(budgetUtilization, Fin(100.0)) {
      insights := insights + [Insight(Danger, ExceedsBudget(expenses, Sub(budgetUtilization, Fin(100.0))))];
      tail := insights[|head|..];
    } else if Gt(budgetUtilization, Fin(90.0)) {
      insights := insights + [Insight(Warning, UsesBudget(budgetUtilization))];
      tail := insights[|head|..];
    } else {
      assert insights == head + tail;
    }
    assert insights == head + tail;
    assert BudgetInsight(tail, budgetUtilization, expenses);
    InsightsJoin(head, tail, savingsRate, budgetUtilization, expenses);
  }

  /** A predicted expense of 1100 against budgets totalling 1000 exceeds them
      by 10 percent. */
  lemma OverBudgetExample(ins: seq<Insight>, rate: JsNum, budgets: seq<Budget>)
    requires BudgetTotal(budgets) == 1000.0
    requires InsightsMatch(ins, rate, Utilisation(Fin(1100.0), budgets), Fin(1100.0))
    ensures |ins| >= 1 && ins[|ins| - 1] == Insight(Danger, ExceedsBudget(Fin(1100.0), Fin(10.0)))
  {
    assert Utilisation(Fin(1100.0), budgets) == Fin(110.0);
  }

  // ---------------------------------------------------------------------
  // predictNextMonth

  datatype Predictions = Predictions(expenses: JsNum, income: JsNum, savings: JsNum, confidence: real)

  /** `{month, predictions, insights}`; the month is the key of the month
      whose long name and year the source prints. */
  datatype MonthForecast = MonthForecast(month: MonthKey, predictions: Predictions, insights: seq<Insight>)

  /** `predictNextMonth`, with today's date passed in. Savings, confidence
      and insights are all derived from the same aggregates and the same two
      predictions that are returned. */
  method PredictNextMonth(txs: seq<Transaction>, budgets: seq<Budget>, today: CalDate)
    returns (f: MonthForecast)
    requires WellDated(txs) && 1 <= today.month <= 12
    ensures f.month == NextMonth(today)
    ensures f.predictions.expenses == PredictExpenses(HistoryOf(txs))
    ensures f.predictions.income == PredictIncome(HistoryOf(txs))
    ensures f.predictions.savings == PredictSavings(f.predictions.income, f.predictions.expenses)
    ensures f.predictions.confidence == Confidence(|Dedup(MonthsOf(FileAll(txs)))|)
    ensures InsightsMatch(f.insights, SavingsRate(f.predictions.savings, f.predictions.income),
                          Utilisation(f.predictions.expenses, budgets), f.predictions.expenses)
  {
    var historicalData := PrepareHistoricalData(txs);
    TabulateKeys(FileAll(txs));
    var expensePrediction := PredictExpenses(historicalData);
    var incomePrediction := PredictIncome(historicalData);
    var savingsPrediction := PredictSavings(incomePrediction, expensePrediction);
    var insights := GenerateInsights(expensePrediction, incomePrediction, savingsPrediction, budgets);
    f := MonthForecast(
      NextMonth(today),
      Predictions(expensePrediction, incomePrediction, savingsPrediction, Confidence(|historicalData|)),
      insights);
  }
}
