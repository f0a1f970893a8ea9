/**
 * The application shell: the transaction and budget lists every page reads,
 * the three operations that replace them (add, delete, change a budget),
 * and the choice of page for the active tab.
 */
module App {
  import opened Common
  import opened Text

  /** The injected clock: `Date.now()`, the UTC calendar day of
      `toISOString()`, and the local "HH:MM" time text. */
  datatype Clock = Clock(millis: int, utcDay: CalDate, localTime: string)

  /** The pages the shell can render. */
  datatype Page = DashboardPage | TransactionsPage | BudgetPage | ReportsPage

  /** `renderActiveComponent`: the four known tabs pick their page; any other
      tab falls back to the dashboard. */
  function PageFor(tab: string): (p: Page)
    ensures p == TransactionsPage <==> tab == "transactions"
    ensures p == BudgetPage <==> tab == "budget"
    ensures p == ReportsPage <==> tab == "reports"
    ensures p == DashboardPage <==> tab !in {"transactions", "budget", "reports"}
  {
    match tab
    case "dashboard" => DashboardPage
    case "transactions" => TransactionsPage
    case "budget" => BudgetPage
    case "reports" => ReportsPage
    case _ => DashboardPage
  }

  /** The transaction `addTransaction` builds from a draft: the draft's
      fields, the clock's milliseconds as id, its UTC day as date and its
      local time. */
  function Stamp(d: Draft, now: Clock): (t: Transaction)
    requires ValidDate(now.utcDay) && 0 <= now.utcDay.year <= 9999
    ensures ParseIso(t.date) == Some(now.utcDay)
    ensures t.kind == d.kind && t.category == d.category && t.amount == d.amount && t.description == d.description
  {
    ParseIsoText(now.utcDay);
    Transaction(now.millis, d.kind, d.category, d.amount, d.description, IsoText(now.utcDay), now.localTime)
  }

  /** `transactions.filter(t => t.id !== id)`. */
  function WithoutId(txs: seq<Transaction>, id: int): (r: seq<Transaction>)
    ensures |r| <= |txs|
    ensures forall t {:trigger multiset(r)[t]} :: multiset(r)[t] == if t.id != id then multiset(txs)[t] else 0
  {
    if |txs| == 0 then []
    else
      var last := txs[|txs| - 1];
      assert multiset(txs) == multiset(txs[..|txs| - 1]) + multiset{last} by {
        assert txs == txs[..|txs| - 1] + [last];
      }
      WithoutId(txs[..|txs| - 1], id) + (if last.id != id then [last] else [])
  }

  /** Deleting keeps exactly the transactions with another id. */
  lemma {:induction false} WithoutIdMembers(txs: seq<Transaction>, id: int)
    ensures forall t :: t in WithoutId(txs, id) <==> t in txs && t.id != id
    decreases |txs|
  {
    if |txs| > 0 {
      var n := |txs| - 1;
      WithoutIdMembers(txs[..n], id);
      assert txs == txs[..n] + [txs[n]];
    }
  }

  /** Deleting an id nobody has changes nothing. */
  lemma {:induction false} WithoutAbsentId(txs: seq<Transaction>, id: int)
    requires forall t :: t in txs ==> t.id != id
    ensures WithoutId(txs, id) == txs
    decreases |txs|
  {
    if |txs| > 0 {
      var n := |txs| - 1;
      var front := txs[..n];
      forall t | t in front
        ensures t.id != id
      {
        assert t in txs;
      }
      WithoutAbsentId(front, id);
      assert txs[n] in txs;
      WithoutIdSnoc(txs, id);
      assert txs == front + [txs[n]];
    }
  }

  lemma WithoutIdSnoc(txs: seq<Transaction>, id: int)
    requires |txs| > 0
    ensures var last := txs[|txs| - 1];
      WithoutId(txs, id) == WithoutId(txs[..|txs| - 1], id) + (if last.id != id then [last] else [])
  {
  }

  /** The kept transactions stay in their order: each is picked from a
      strictly later position than the one before it. */
  ghost predicate PickedInOrder(txs: seq<Transaction>, r: seq<Transaction>, pick: seq<nat>)
  {
    |pick| == |r| &&
    (forall k :: 0 <= k < |r| ==> pick[k] < |txs| && txs[pick[k]] == r[k]) &&
    (forall k, k' :: 0 <= k < k' < |r| ==> pick[k] < pick[k'])
  }

  lemma {:induction false} WithoutIdInOrder(txs: seq<Transaction>, id: int)
    ensures exists pick :: PickedInOrder(txs, WithoutId(txs, id), pick)
    decreases |txs|
  {
    if |txs| == 0 {
      var none: seq<nat> := [];
      assert PickedInOrder(txs, WithoutId(txs, id), none);
    } else {
      var n := |txs| - 1;
      WithoutIdInOrder(txs[..n], id);
      var front := WithoutId(txs[..n], id);
      var pick: seq<nat> :| PickedInOrder(txs[..n], front, pick);
      assert txs[..|txs| - 1] == txs[..n];
      forall k | 0 <= k < |pick| ensures pick[k] < n && txs[pick[k]] == front[k] {
        assert txs[..n][pick[k]] == txs[pick[k]];
      }
      if txs[n].id != id {
        var pick' := pick + [n];
        var r := front + [txs[n]];
        assert WithoutId(txs, id) == r;
        forall k | 0 <= k < |r| ensures pick'[k] < |txs| && txs[pick'[k]] == r[k] {
          if k < |front| { assert pick'[k] == pick[k] && r[k] == front[k]; }
        }
        assert PickedInOrder(txs, r, pick');
      } else {
        assert WithoutId(txs, id) == front + [] == front;
        assert PickedInOrder(txs, front, pick);
      }
    }
  }

  /** `budgets.map(b => b.category === category ? {...b, budget} : b)`. */
  function Rebudget(budgets: seq<Budget>, category: string, amount: real): (r: seq<Budget>)
    ensures |r| == |budgets|
    ensures forall i :: 0 <= i < |r| ==>
      r[i].category == budgets[i].category && r[i].spent == budgets[i].spent && r[i].color == budgets[i].color
    ensures forall i :: 0 <= i < |r| ==>
      r[i].budget == (if budgets[i].category == category then amount else budgets[i].budget)
  {
    seq(|budgets|, i requires 0 <= i < |budgets| =>
      if budgets[i].category == category then budgets[i].(budget := amount) else budgets[i])
  }

  /** Changing a category nobody has changes nothing; changing one twice
      keeps only the second amount. */
  lemma RebudgetAbsent(budgets: seq<Budget>, category: string, amount: real)
    requires forall b :: b in budgets ==> b.category != category
    ensures Rebudget(budgets, category, amount) == budgets
  {
    var r := Rebudget(budgets, category, amount);
    forall i | 0 <= i < |budgets| ensures r[i] == budgets[i] {
      assert budgets[i] in budgets;
    }
  }

  lemma RebudgetTwice(budgets: seq<Budget>, category: string, a: real, b: real)
    ensures Rebudget(Rebudget(budgets, category, a), category, b) == Rebudget(budgets, category, b)
  {
  }

  /** The sample data the application starts with. */
  const InitialTransactions: seq<Transaction> := [
    Transaction(1, "income", "Sales Revenue", 45000.0, "Q1 Product Sales - TechCorp Solutions", "2024-01-15", "14:30"),
    Transaction(2, "expense", "Payroll", 28000.0, "Monthly Employee Salaries", "2024-01-01", "09:00"),
    Transaction(3, "expense", "Office Rent", 8500.0, "Downtown Office Space - January", "2024-01-01", "08:00"),
    Transaction(4, "expense", "Marketing", 12000.0, "Digital Marketing Campaign - Q1", "2024-01-10", "11:00"),
    Transaction(5, "income", "Consulting", 15000.0, "Enterprise Consulting Services", "2024-01-12", "16:00"),
    Transaction(6, "expense", "Technology", 5500.0, "Software Licenses & Cloud Services", "2024-01-08", "10:30"),
    Transaction(7, "expense", "Utilities", 3200.0, "Office Utilities - January", "2024-01-05", "09:15"),
    Transaction(8, "income", "Investment", 25000.0, "Series A Funding Round", "2024-01-20", "15:45"),
    Transaction(9, "expense", "Travel", 4800.0, "Business Travel - Client Meetings", "2024-01-18", "13:20"),
    Transaction(10, "expense", "Professional Services", 7500.0, "Legal & Accounting Services", "2024-01-14", "12:00")
  ]

  const InitialBudgets: seq<Budget> := [
    Budget("Payroll", 30000.0, 28000.0, "#ef4444"),
    Budget("Marketing", 15000.0, 12000.0, "#3b82f6"),
    Budget("Office Rent", 10000.0, 8500.0, "#10b981"),
    Budget("Technology", 8000.0, 5500.0, "#f59e0b"),
    Budget("Professional Services", 10000.0, 7500.0, "#8b5cf6"),
    Budget("Travel", 6000.0, 4800.0, "#ec4899"),
    Budget("Utilities", 4000.0, 3200.0, "#06b6d4"),
    Budget("Equipment", 5000.0, 2100.0, "#84cc16")
  ]

  /** The shell's state. */
  class Shell {
    var activeTab: string
    var transactions: seq<Transaction>
    var budgets: seq<Budget>

    constructor()
      ensures activeTab == "dashboard"
      ensures transactions == InitialTransactions && budgets == InitialBudgets
    {
      activeTab := "dashboard";
      transactions := InitialTransactions;
      budgets := InitialBudgets;
    }

    /** The sidebar's tab change. */
    method SetTab(tab: string)
      modifies this
      ensures activeTab == tab
      ensures transactions == old(transactions) && budgets == old(budgets)
    {
      activeTab := tab;
    }

    function ActivePage(): Page
      reads this
    {
      PageFor(activeTab)
    }

    /** `addTransaction`: the stamped transaction goes in front; the others
        follow unchanged and in order. */
    method AddTransaction(d: Draft, now: Clock)
      requires ValidDate(now.utcDay) && 0 <= now.utcDay.year <= 9999
      modifies this
      ensures transactions == [Stamp(d, now)] + old(transactions)
      ensures |transactions| == |old(transactions)| + 1 && transactions[1..] == old(transactions)
      ensures budgets == old(budgets) && activeTab == old(activeTab)
    {
      transactions := [Stamp(d, now)] + transactions;
    }

    /** `deleteTransaction`. */
    method DeleteTransaction(id: int)
      modifies this
      ensures transactions == WithoutId(old(transactions), id)
      ensures budgets == old(budgets) && activeTab == old(activeTab)
    {
      transactions := WithoutId(transactions, id);
    }

    /** `updateBudget`. */
    method UpdateBudget(category: string, amount: real)
      modifies this
      ensures budgets == Rebudget(old(budgets), category, amount)
      ensures transactions == old(transactions) && activeTab == old(activeTab)
    {
      budgets := Rebudget(budgets, category, amount);
    }
  }

  /** Adding a transaction and deleting its id again gives back the list,
      when no other transaction had that id. */
  method AddThenDelete(d: Draft, now: Clock) returns (before: seq<Transaction>, after: seq<Transaction>)
    requires ValidDate(now.utcDay) && 0 <= now.utcDay.year <= 9999
    requires forall t :: t in InitialTransactions ==> t.id != now.millis
    ensures after == before
  {
    var shell := new Shell();
    before := shell.transactions;
    shell.AddTransaction(d, now);
    shell.DeleteTransaction(now.millis);
    after := shell.transactions;
    WithoutAbsentId(before, now.millis);
    WithoutIdFront(Stamp(d, now), before, now.millis);
  }

  lemma {:induction false} WithoutIdFront(t: Transaction, txs: seq<Transaction>, id: int)
    requires t.id == id
    ensures WithoutId([t] + txs, id) == WithoutId(txs, id)
    decreases |txs|
  {
    if |txs| == 0 {
      assert [t] + txs == [t];
      assert [t][..0] == [];
    } else {
      var n := |txs| - 1;
      assert ([t] + txs)[..|txs|] == [t] + txs[..n];
      WithoutIdFront(t, txs[..n], id);
    }
  }
}
