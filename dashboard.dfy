/**
 * The dashboard: the income and expense totals with their difference, the
 * most recent transactions, the expense breakdown drawn from the budget
 * lines, and the monthly chart over all transactions.
 */
module DashboardPage {
  import opened Common
  import opened Text
  import opened Tallies

  /** The summary cards: `totalIncome` sums type "income", `totalExpenses`
      sums type "expense" (other types count in neither), and `netIncome`
      is their difference. */
  datatype Summary = Summary(totalIncome: real, totalExpenses: real, netIncome: real)

  function Summarize(txs: seq<Transaction>): (s: Summary)
    ensures s.totalIncome == AmountTotal(OfKind(txs, "income"))
    ensures s.totalExpenses == AmountTotal(OfKind(txs, "expense"))
    ensures s.netIncome == s.totalIncome - s.totalExpenses
  {
    var income := TotalOfKind(txs, "income");
    var expenses := TotalOfKind(txs, "expense");
    Summary(income, expenses, income - expenses)
  }

  /** Transactions of another type change neither total. */
  lemma SummaryIgnoresOtherTypes(txs: seq<Transaction>, t: Transaction)
    requires t.kind != "income" && t.kind != "expense"
    ensures Summarize(txs + [t]) == Summarize(txs)
  {
    assert (txs + [t])[..|txs|] == txs;
    assert OfKind(txs + [t], "income") == OfKind(txs, "income") + [];
    assert OfKind(txs + [t], "expense") == OfKind(txs, "expense") + [];
    assert OfKind(txs, "income") + [] == OfKind(txs, "income");
    assert OfKind(txs, "expense") + [] == OfKind(txs, "expense");
  }

  /** `recentTransactions`: `transactions.slice(0, 5)`, the first five in
      list order (the newest, since new ones are put in front). */
  function Recent(txs: seq<Transaction>): (r: seq<Transaction>)
    ensures |r| == if |txs| < 5 then |txs| else 5
    ensures r == txs[..|r|]
  {
    if |txs| < 5 then txs else txs[..5]
  }

  /** A slice of the spending chart. */
  datatype Slice = Slice(name: string, value: real, color: string)

  /** `expenseByCategory` (and the reports page's `categoryData`): one slice
      per budget line, in budget order, valued at the line's `spent`. */
  function Slices(budgets: seq<Budget>): (r: seq<Slice>)
    ensures |r| == |budgets|
    ensures forall i :: 0 <= i < |budgets| ==>
      r[i].name == budgets[i].category && r[i].value == budgets[i].spent && r[i].color == budgets[i].color
  {
    seq(|budgets|, i requires 0 <= i < |budgets| => Slice(budgets[i].category, budgets[i].spent, budgets[i].color))
  }

  /** `getMonthlyData` on the dashboard: every transaction, keyed by month
      name only, so the same month of different years is one point; points
      come January to December (after the "Invalid Date" point of
      unreadable dates, if any); the points' income adds up to the total
      income and their expenses to every other transaction. */
  method MonthlyData(txs: seq<Transaction>) returns (ps: seq<Point>)
    ensures ps == Series(Tally(Key(txs, Monthly)), -1, 12)
    ensures |ps| <= 13
    ensures forall i, j :: 0 <= i < j < |ps| ==> ps[i].slot < ps[j].slot
    ensures forall i :: 0 <= i < |ps| ==> -1 <= ps[i].slot < 12
    ensures IncomeSum(ps) == AmountTotal(OfKind(txs, "income"))
    ensures ExpenseSum(ps) == AmountTotal(NotOfKind(txs, "income"))
  {
    var m := Accumulate(txs, Monthly);
    ps := Series(m, -1, 12);
    forall t | t in txs ensures -1 <= Slot(Monthly, t) < 12 {
    }
    SeriesConserves(txs, Monthly, -1, 12);
  }

  /** Each point holds the month's income and, as expenses, every other
      transaction of that month, across all years. */
  lemma MonthlyPoint(txs: seq<Transaction>, pt: Point)
    requires pt in Series(Tally(Key(txs, Monthly)), -1, 12)
    ensures exists t :: t in txs && Slot(Monthly, t) == pt.slot
    ensures Totals(pt.income, pt.expenses) == Breakdown(InSlot(Key(txs, Monthly), pt.slot))
  {
    var ks := Key(txs, Monthly);
    TallyMeaning(ks);
    var k :| k in ks && k.slot == pt.slot;
    var i :| 0 <= i < |ks| && ks[i] == k;
    assert txs[i] in txs;
  }
}
