/**
 * The reports page for one chosen year: the monthly and weekly charts, the
 * income, expense and savings figures, and the four insight cards (top
 * spending category, budget alerts, savings trend, budget use).
 */
module ReportsPage {
  import opened Common
  import opened Text
  import opened Sorting
  import opened Tallies

  /** `getMonthlyData`: the chosen year's transactions by month, January to
      December, at most twelve points; their income adds up to the year's
      income and their expenses to the year's other transactions. */
  method MonthlyData(txs: seq<Transaction>, year: int) returns (ps: seq<Point>)
    ensures ps == Series(Tally(Key(InYear(txs, year), Monthly)), -1, 12)
    ensures |ps| <= 12
    ensures forall i :: 0 <= i < |ps| ==> 0 <= ps[i].slot < 12
    ensures forall i, j :: 0 <= i < j < |ps| ==> ps[i].slot < ps[j].slot
    ensures IncomeSum(ps) == AmountTotal(OfKind(InYear(txs, year), "income"))
    ensures ExpenseSum(ps) == AmountTotal(NotOfKind(InYear(txs, year), "income"))
  {
    var yr := InYear(txs, year);
    var m := Accumulate(yr, Monthly);
    ps := Series(m, -1, 12);
    DatedSlots(yr, year, Monthly);
    SlotsPresent(yr, Monthly, ps, -1, 12);
    AscendingBound(ps, 0, 12);
    SeriesConserves(yr, Monthly, -1, 12);
  }

  /** `getWeeklyData`: the chosen year's transactions by `Week n` with
      n = ceil(day / 7), Week 1 to Week 5, at most five points. */
  method WeeklyData(txs: seq<Transaction>, year: int) returns (ps: seq<Point>)
    ensures ps == Series(Tally(Key(InYear(txs, year), Weekly)), -1, 6)
    ensures |ps| <= 5
    ensures forall i :: 0 <= i < |ps| ==> 1 <= ps[i].slot <= 5
    ensures forall i, j :: 0 <= i < j < |ps| ==> ps[i].slot < ps[j].slot
    ensures IncomeSum(ps) == AmountTotal(OfKind(InYear(txs, year), "income"))
    ensures ExpenseSum(ps) == AmountTotal(NotOfKind(InYear(txs, year), "income"))
  {
    var yr := InYear(txs, year);
    var m := Accumulate(yr, Weekly);
    ps := Series(m, -1, 6);
    DatedSlots(yr, year, Weekly);
    SlotsPresent(yr, Weekly, ps, -1, 6);
    AscendingBound(ps, 1, 6);
    SeriesConserves(yr, Weekly, -1, 6);
  }

  /** The year's transactions all have readable dates, so none falls in
      the "invalid" period. */
  lemma DatedSlots(yr: seq<Transaction>, year: int, p: Period)
    requires forall t :: t in yr ==> YearOf(t) == Some(year)
    ensures forall t :: t in yr ==> Slot(p, t) != -1
  {
  }

  /** Every point's period is the period of some transaction. */
  lemma SlotsPresent(txs: seq<Transaction>, p: Period, ps: seq<Point>, lo: int, hi: int)
    requires ps == Series(Tally(Key(txs, p)), lo, hi)
    ensures forall i :: 0 <= i < |ps| ==> exists t :: t in txs && Slot(p, t) == ps[i].slot
  {
    var ks := Key(txs, p);
    TallyMeaning(ks);
    forall i | 0 <= i < |ps| ensures exists t :: t in txs && Slot(p, t) == ps[i].slot {
      var k :| k in ks && k.slot == ps[i].slot;
      var j :| 0 <= j < |ks| && ks[j] == k;
      assert txs[j] in txs;
    }
  }

  /** Strictly increasing periods inside `lo .. hi - 1` number at most
      `hi - lo`. */
  lemma {:induction false} AscendingBound(ps: seq<Point>, lo: int, hi: int)
    requires forall i, j :: 0 <= i < j < |ps| ==> ps[i].slot < ps[j].slot
    requires forall i :: 0 <= i < |ps| ==> lo <= ps[i].slot < hi
    ensures |ps| <= if hi <= lo then 0 else hi - lo
    decreases |ps|
  {
    if |ps| > 0 {
      var n := |ps| - 1;
      AscendingBound(ps[..n], lo, ps[n].slot);
    }
  }

  /** The summary figures of the year: income, expenses (type "expense"
      only), net savings and the savings rate. */
  datatype Figures = Figures(totalIncome: real, totalExpenses: real, netSavings: real, savingsRate: real)

  /** `savingsRate`: net savings as a percentage of income, 0 without
      income. */
  function SavingsRate(income: real, expenses: real): (rate: real)
    ensures income <= 0.0 ==> rate == 0.0
    ensures income > 0.0 ==> rate * income == (income - expenses) * 100.0
    ensures income > 0.0 ==> (rate > 0.0 <==> expenses < income)
    ensures income > 0.0 && expenses >= 0.0 ==> rate <= 100.0
  {
    if income > 0.0 then (income - expenses) / income * 100.0 else 0.0
  }

  function YearFigures(txs: seq<Transaction>, year: int): (f: Figures)
    ensures f.totalIncome == AmountTotal(OfKind(InYear(txs, year), "income"))
    ensures f.totalExpenses == AmountTotal(OfKind(InYear(txs, year), "expense"))
    ensures f.netSavings == f.totalIncome - f.totalExpenses
    ensures f.savingsRate == SavingsRate(f.totalIncome, f.totalExpenses)
  {
    var yr := InYear(txs, year);
    var income := TotalOfKind(yr, "income");
    var expenses := TotalOfKind(yr, "expense");
    Figures(income, expenses, income - expenses, SavingsRate(income, expenses))
  }

  /** The year's expenses outside "Payroll", in order. */
  function NonPayrollExpenses(txs: seq<Transaction>): (r: seq<Transaction>)
    ensures forall t :: t in r <==> t in txs && t.kind == "expense" && t.category != "Payroll"
    ensures forall t {:trigger multiset(r)[t]} :: multiset(r)[t] == if t.kind == "expense" && t.category != "Payroll" then multiset(txs)[t] else 0
  {
    if |txs| == 0 then []
    else
      var last := txs[|txs| - 1];
      assert multiset(txs) == multiset(txs[..|txs| - 1]) + multiset{last} by {
        assert txs == txs[..|txs| - 1] + [last];
      }
      assert forall t :: t in txs <==> t in txs[..|txs| - 1] || t == last by {
        assert txs == txs[..|txs| - 1] + [last];
      }
      NonPayrollExpenses(txs[..|txs| - 1]) +
        (if last.kind == "expense" && last.category != "Payroll" then [last] else [])
  }

  /** The top spending card: the category, its total, and its share of the
      non-payroll expenses in percent. */
  datatype TopSpending = TopSpending(category: string, amount: real, percentage: real)

  /** `c` with total `amount` is a top spending category of `spend`: no
      category has more, and it appears no later than any other category
      with as much. */
  ghost predicate IsTop(spend: seq<Transaction>, c: string, amount: real)
  {
    c in Names(spend) && amount == CategoryTotal(spend, c) &&
    (forall d :: d in Names(spend) ==> CategoryTotal(spend, d) <= amount) &&
    (forall d :: d in Names(spend) && CategoryTotal(spend, d) == amount ==>
       FirstIndex(Names(spend), c) <= FirstIndex(Names(spend), d))
  }

  /** `part` as a percentage of `whole`, 0 when the whole is not
      positive. */
  function Share(part: real, whole: real): (pct: real)
    ensures whole > 0.0 ==> pct * whole == part * 100.0
    ensures whole <= 0.0 ==> pct == 0.0
  {
    if whole > 0.0 then
      var q := part / whole;
      assert q * whole == part;
      assert (q * 100.0) * whole == (q * whole) * 100.0;
      q * 100.0
    else 0.0
  }

  /** The first of the entries sorted by total, largest first, with its
      share of all the given expenses, or nothing when there are none. */
  function TopOf(spend: seq<Transaction>): Option<TopSpending>
  {
    var sorted := SortDesc(CategoryEntries(spend), Amount);
    if |sorted| == 0 then None
    else
      var nonPayroll := AmountTotal(spend);
      Some(TopSpending(sorted[0].category, sorted[0].amount, Share(sorted[0].amount, nonPayroll)))
  }

  /** `getTopSpendingCategory`: the category totals of the year's
      non-payroll expenses, by the same loop as the other category sums,
      sorted by total, largest first; the first one is reported with its
      share. */
  method TopSpendingCategory(txs: seq<Transaction>, year: int) returns (top: Option<TopSpending>)
    ensures top == TopOf(NonPayrollExpenses(InYear(txs, year)))
  {
    var spend := NonPayrollExpenses(InYear(txs, year));
    var entries := CategorySums(spend);
    var sorted := SortDesc(entries, Amount);
    if |sorted| == 0 {
      top := None;
    } else {
      var first := sorted[0];
      var nonPayroll := AmountTotal(spend);
      var pct := Share(first.amount, nonPayroll);
      top := Some(TopSpending(first.category, first.amount, pct));
    }
  }

  /** The card is empty exactly when there is no expense to rank. */
  lemma TopOfNone(spend: seq<Transaction>)
    ensures TopOf(spend).None? <==> spend == []
  {
    EntriesEmpty(spend);
  }

  /** The card shows a top spending category and its total. */
  lemma TopOfIsTop(spend: seq<Transaction>)
    requires spend != []
    ensures TopOf(spend).Some? && IsTop(spend, TopOf(spend).value.category, TopOf(spend).value.amount)
  {
    EntriesEmpty(spend);
    TopOfSorted(spend);
  }

  /** There are no entries exactly when there are no transactions. */
  lemma EntriesEmpty(spend: seq<Transaction>)
    ensures |SortDesc(CategoryEntries(spend), Amount)| == 0 <==> spend == []
  {
    if |spend| > 0 {
      assert Names(spend)[0] in Dedup(Names(spend));
    }
  }

  /** The first entry after sorting is a top spending category. */
  lemma TopOfSorted(spend: seq<Transaction>)
    requires |CategoryEntries(spend)| > 0
    ensures |SortDesc(CategoryEntries(spend), Amount)| > 0
    ensures IsTop(spend, SortDesc(CategoryEntries(spend), Amount)[0].category, SortDesc(CategoryEntries(spend), Amount)[0].amount)
  {
    var es := CategoryEntries(spend);
    SortDescHead(es, Amount);
    var k := FirstMax(es, Amount);
    TopIsLargest(spend, k);
  }

  /** The entry found first with the largest total beats every category,
      and appears no later than any category with the same total. */
  lemma TopIsLargest(spend: seq<Transaction>, k: nat)
    requires k < |CategoryEntries(spend)|
    requires forall j :: 0 <= j < |CategoryEntries(spend)| ==> CategoryEntries(spend)[j].amount <= CategoryEntries(spend)[k].amount
    requires forall j :: 0 <= j < k ==> CategoryEntries(spend)[j].amount < CategoryEntries(spend)[k].amount
    ensures IsTop(spend, CategoryEntries(spend)[k].category, CategoryEntries(spend)[k].amount)
  {
    var names := Names(spend);
    var order := Dedup(names);
    var es := CategoryEntries(spend);
    var c := order[k];
    assert es[k].category == c && es[k].amount == CategoryTotal(spend, c);
    forall d | d in names
      ensures CategoryTotal(spend, d) <= es[k].amount
      ensures CategoryTotal(spend, d) == es[k].amount ==> FirstIndex(names, c) <= FirstIndex(names, d)
    {
      var j :| 0 <= j < |order| && order[j] == d;
      assert es[j].amount == CategoryTotal(spend, d);
      if CategoryTotal(spend, d) == es[k].amount && j != k {
        assert k < j;
        DedupFirstAppearance(names);
      }
    }
  }

  /** With positive amounts, the top category's share of the
      non-payroll expenses lies in (0, 100]. */
  lemma TopShare(spend: seq<Transaction>)
    requires forall t :: t in spend ==> t.amount > 0.0
    requires TopOf(spend).Some?
    ensures 0.0 < TopOf(spend).value.percentage <= 100.0
  {
    TopOfNone(spend);
    TopOfIsTop(spend);
    var top := TopOf(spend).value;
    var w := AmountTotal(spend);
    ShareBounds(spend, top.category);
    ShareRange(top.amount, w);
    assert top.percentage == Share(top.amount, w);
  }

  /** A positive part of a whole is a share in (0, 100]. */
  lemma ShareRange(part: real, whole: real)
    requires 0.0 < part <= whole
    ensures 0.0 < Share(part, whole) <= 100.0
  {
    RatioBetween(Share(part, whole), whole, part);
  }

  /** With positive amounts a present category's total is positive and at
      most the total of all. */
  lemma {:induction false} ShareBounds(spend: seq<Transaction>, c: string)
    requires forall t :: t in spend ==> t.amount > 0.0
    requires c in Names(spend)
    ensures 0.0 < CategoryTotal(spend, c) <= AmountTotal(spend)
    decreases |spend|
  {
    var n := |spend| - 1;
    var init := spend[..n];
    var t := spend[n];
    assert forall u :: u in init ==> u in spend;
    assert InCategory(spend, c) == InCategory(init, c) + (if t.category == c then [t] else []);
    if c in Names(init) {
      ShareBounds(init, c);
    } else {
      CategoryTotalAbsent(init, c);
      AmountTotalNonNegative(init);
      assert Names(spend)[n] == c by {
        var i :| 0 <= i < |spend| && Names(spend)[i] == c;
        if i < n { assert Names(init)[i] == c; }
      }
    }
    if t.category == c {
      AmountTotalSnoc(InCategory(init, c), t);
    } else {
      assert InCategory(spend, c) == InCategory(init, c);
    }
  }

  /** The two alert levels. */
  datatype Level = Danger | Warning

  /** An alert of `getBudgetAlerts`: its level, the budget line, the
      percentage used, and the amount over budget the danger message
      prints. */
  datatype Alert = Alert(level: Level, category: string, percentage: JsNum, overrun: real)

  /** `(budget.spent / budget.budget) * 100`, with what a zero budget
      makes of it. */
  function UsedPercentage(b: Budget): JsNum
  {
    Mul(Div(Fin(b.spent), Fin(b.budget)), Fin(100.0))
  }

  /** The alert one budget line raises, if any: none for "Payroll"; danger
      from 100%, warning from 80%. */
  function AlertFor(b: Budget): (a: Option<Alert>)
    ensures a.Some? ==> a.value.category == b.category && b.category != "Payroll"
    ensures a.Some? ==> a.value.percentage == UsedPercentage(b) && a.value.overrun == b.spent - b.budget
  {
    if b.category == "Payroll" then None
    else
      var pct := UsedPercentage(b);
      if Ge(pct, Fin(100.0)) then Some(Alert(Danger, b.category, pct, b.spent - b.budget))
      else if Ge(pct, Fin(80.0)) then Some(Alert(Warning, b.category, pct, b.spent - b.budget))
      else None
  }

  /** For a positive budget: danger exactly when the line is spent, warning
      exactly from 80% of it up to it, nothing below 80%. A zero budget
      with spending is in danger; one with none raises nothing. */
  lemma AlertBands(b: Budget)
    requires b.category != "Payroll"
    ensures b.budget > 0.0 ==>
      (AlertFor(b).Some? && AlertFor(b).value.level == Danger <==> b.spent >= b.budget)
    ensures b.budget > 0.0 ==>
      (AlertFor(b).Some? && AlertFor(b).value.level == Warning <==> 0.8 * b.budget <= b.spent < b.budget)
    ensures b.budget == 0.0 ==>
      (b.spent > 0.0 ==> AlertFor(b).Some? && AlertFor(b).value.level == Danger) &&
      (b.spent <= 0.0 ==> AlertFor(b).None?)
  {
    if b.budget > 0.0 {
      var r := b.spent / b.budget * 100.0;
      assert UsedPercentage(b) == Fin(r);
      assert r * b.budget == b.spent * 100.0;
      RatioAtLeast(r, b.budget, b.spent, 100.0);
      RatioAtLeast(r, b.budget, b.spent, 80.0);
    }
  }

  /** `getBudgetAlerts` as a value: each line's alert, in budget order. */
  function Alerts(budgets: seq<Budget>): seq<Alert>
  {
    if |budgets| == 0 then []
    else
      var a := AlertFor(budgets[|budgets| - 1]);
      Alerts(budgets[..|budgets| - 1]) + (if a.Some? then [a.value] else [])
  }

  /** The alerts of two runs of budget lines are those of the first run
      followed by those of the second: the page keeps budget order. */
  lemma {:induction false} AlertsConcat(xs: seq<Budget>, ys: seq<Budget>)
    ensures Alerts(xs + ys) == Alerts(xs) + Alerts(ys)
    decreases |ys|
  {
    if |ys| == 0 {
      assert xs + ys == xs;
    } else {
      var n := |ys| - 1;
      assert (xs + ys)[..|xs + ys| - 1] == xs + ys[..n];
      AlertsConcat(xs, ys[..n]);
    }
  }

  /** Every alert comes from a line that is not "Payroll". */
  lemma {:induction false} AlertsFromLines(budgets: seq<Budget>)
    ensures forall a :: a in Alerts(budgets) ==>
      a.category != "Payroll" && exists b :: b in budgets && AlertFor(b) == Some(a)
    decreases |budgets|
  {
    if |budgets| > 0 {
      var n := |budgets| - 1;
      AlertsFromLines(budgets[..n]);
      assert forall b :: b in budgets[..n] ==> b in budgets;
      assert budgets[n] in budgets;
    }
  }

  /** The `forEach` that pushes the alerts. */
  method BudgetAlerts(budgets: seq<Budget>) returns (alerts: seq<Alert>)
    ensures alerts == Alerts(budgets)
    ensures |alerts| <= |budgets|
  {
    alerts := [];
    for i := 0 to |budgets|
      invariant alerts == Alerts(budgets[..i])
      invariant |alerts| <= i
    {
      var a := AlertFor(budgets[i]);
      if a.Some? {
        alerts := alerts + [a.value];
      }
      assert budgets[..i + 1][..i] == budgets[..i];
    }
    assert budgets[..|budgets|] == budgets;
  }

  /** The savings-trend card's four messages. */
  datatype Trend = Excellent | Good | Modest | Overspending

  /** `getFinancialTrend`. */
  function FinancialTrend(rate: real): (trend: Trend)
    ensures trend == Excellent <==> rate > 20.0
    ensures trend == Good <==> 10.0 < rate <= 20.0
    ensures trend == Modest <==> 0.0 < rate <= 10.0
    ensures trend == Overspending <==> rate <= 0.0
  {
    if rate > 20.0 then Excellent
    else if rate > 10.0 then Good
    else if rate > 0.0 then Modest
    else Overspending
  }

  /** The card's `type`. */
  function TrendType(trend: Trend): string
  {
    match trend
    case Excellent => "positive"
    case Good => "positive"
    case Modest => "neutral"
    case Overspending => "negative"
  }

  /** With income, the card is negative exactly when expenses reach income,
      and positive exactly when more than a tenth of income is saved. */
  lemma TrendOfYear(income: real, expenses: real)
    requires income > 0.0
    ensures TrendType(FinancialTrend(SavingsRate(income, expenses))) == "negative" <==> expenses >= income
    ensures TrendType(FinancialTrend(SavingsRate(income, expenses))) == "positive" <==>
      (income - expenses) * 10.0 > income
  {
    var rate := SavingsRate(income, expenses);
    RatioAtLeast(rate, income, income - expenses, 10.0);
    if rate == 10.0 {
      assert (income - expenses) * 100.0 == 10.0 * income;
    }
  }

  /** `reduce((sum, b) => sum + b.budget, 0)` and the same over `spent`. */
  function BudgetTotal(budgets: seq<Budget>): real
  {
    if |budgets| == 0 then 0.0 else BudgetTotal(budgets[..|budgets| - 1]) + budgets[|budgets| - 1].budget
  }

  function SpentTotal(budgets: seq<Budget>): real
  {
    if |budgets| == 0 then 0.0 else SpentTotal(budgets[..|budgets| - 1]) + budgets[|budgets| - 1].spent
  }

  datatype GoalLevel = GoalGood | GoalWarning | GoalDanger

  /** The budget-use card: the percentage of all budgets spent and its
      level. */
  datatype Goal = Goal(progress: real, level: GoalLevel)

  /** `getGoalProgress`: 0% when the budgets total nothing; good below 70%,
      warning below 90%, danger from 90%. */
  function GoalProgress(budgets: seq<Budget>): (g: Goal)
    ensures BudgetTotal(budgets) <= 0.0 ==> g == Goal(0.0, GoalGood)
    ensures BudgetTotal(budgets) > 0.0 ==> g.progress * BudgetTotal(budgets) == SpentTotal(budgets) * 100.0
    ensures g.level == GoalGood <==> g.progress < 70.0
    ensures g.level == GoalDanger <==> g.progress >= 90.0
  {
    var total := BudgetTotal(budgets);
    var progress := if total > 0.0 then SpentTotal(budgets) / total * 100.0 else 0.0;
    Goal(progress, if progress < 70.0 then GoalGood else if progress < 90.0 then GoalWarning else GoalDanger)
  }

  /** With a positive total, the level follows the share of the budgets
      spent: danger from 90% of the total, good below 70%. */
  lemma GoalBands(budgets: seq<Budget>)
    requires BudgetTotal(budgets) > 0.0
    ensures GoalProgress(budgets).level == GoalDanger <==> SpentTotal(budgets) >= 0.9 * BudgetTotal(budgets)
    ensures GoalProgress(budgets).level == GoalGood <==> SpentTotal(budgets) < 0.7 * BudgetTotal(budgets)
  {
    var total := BudgetTotal(budgets);
    var p := GoalProgress(budgets).progress;
    RatioAtLeast(p, total, SpentTotal(budgets), 90.0);
    RatioAtLeast(p, total, SpentTotal(budgets), 70.0);
  }
}
