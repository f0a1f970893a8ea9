/**
 * The aggregations the dashboard, reports and budget pages share: the year
 * of a transaction's date, the list of years present, the per-month and
 * per-week totals accumulated into an object keyed by period and then laid
 * out in calendar order, and the per-category sums.
 */
module Tallies {
  import opened Common
  import opened Text

  /** `new Date(t.date).getFullYear()`; `None` stands for the NaN an
      unreadable date gives. */
  function YearOf(t: Transaction): (y: Option<int>)
    ensures y.Some? <==> ParseIso(t.date).Some?
    ensures y.Some? ==> y.value == DateOf(t).year
  {
    if ParseIso(t.date).Some? then Some(ParseIso(t.date).value.year) else None
  }

  /** `yearFilteredTransactions`: the transactions of one year, in order. An
      unreadable date is in no year (NaN equals nothing). */
  function InYear(txs: seq<Transaction>, year: int): (r: seq<Transaction>)
    ensures forall t :: t in r <==> t in txs && YearOf(t) == Some(year)
    ensures |r| <= |txs|
    ensures forall t {:trigger multiset(r)[t]} :: multiset(r)[t] == if YearOf(t) == Some(year) then multiset(txs)[t] else 0
  {
    if |txs| == 0 then []
    else
      var last := txs[|txs| - 1];
      assert multiset(txs) == multiset(txs[..|txs| - 1]) + multiset{last} by {
        assert txs == txs[..|txs| - 1] + [last];
      }
      assert forall t :: t in txs <==> t in txs[..|txs| - 1] || t == last by {
        assert txs == txs[..|txs| - 1] + [last];
      }
      InYear(txs[..|txs| - 1], year) + (if YearOf(last) == Some(year) then [last] else [])
  }

  predicate StrictlyAscending(ys: seq<int>)
  {
    forall i, j :: 0 <= i < j < |ys| ==> ys[i] < ys[j]
  }

  /** Adds a year to a strictly ascending list of years. */
  function AddYear(y: int, ys: seq<int>): (r: seq<int>)
    requires StrictlyAscending(ys)
    ensures StrictlyAscending(r)
    ensures forall x :: x in r <==> x in ys || x == y
  {
    if |ys| == 0 then [y]
    else if y < ys[0] then [y] + ys
    else if y == ys[0] then ys
    else
      AscendingSplit(ys);
      var rest := AddYear(y, ys[1..]);
      AscendingCons(ys[0], rest);
      [ys[0]] + rest
  }

  /** An ascending list is its head followed by larger elements. */
  lemma AscendingSplit(ys: seq<int>)
    requires |ys| > 0 && StrictlyAscending(ys)
    ensures StrictlyAscending(ys[1..])
    ensures forall x :: x in ys[1..] ==> x > ys[0]
    ensures forall x :: x in ys <==> x == ys[0] || x in ys[1..]
  {
    assert ys == [ys[0]] + ys[1..];
    forall x | x in ys[1..]
      ensures x > ys[0]
    {
      var k :| 0 <= k < |ys| - 1 && ys[1..][k] == x;
      assert ys[k + 1] == x;
    }
  }

  /** A head below every element of an ascending list keeps it ascending. */
  lemma AscendingCons(h: int, rest: seq<int>)
    requires StrictlyAscending(rest) && forall x :: x in rest ==> x > h
    ensures StrictlyAscending([h] + rest)
  {
    var r := [h] + rest;
    forall i, j | 0 <= i < j < |r|
      ensures r[i] < r[j]
    {
      assert r[j] == rest[j - 1] && r[j] in rest;
      if i > 0 { assert r[i] == rest[i - 1]; }
    }
  }

  /** `availableYears`: the years of the readable dates, each once,
      ascending. A strictly ascending list is fixed by its elements, so this
      is what de-duplicating through a `Set` and sorting with `a - b` gives. */
  function AvailableYears(txs: seq<Transaction>): (ys: seq<int>)
    ensures StrictlyAscending(ys)
    ensures forall y :: y in ys <==> (exists t :: t in txs && YearOf(t) == Some(y))
  {
    if |txs| == 0 then []
    else
      var last := txs[|txs| - 1];
      assert forall t :: t in txs <==> t in txs[..|txs| - 1] || t == last by {
        assert txs == txs[..|txs| - 1] + [last];
      }
      var ys := AvailableYears(txs[..|txs| - 1]);
      if YearOf(last).Some? then AddYear(YearOf(last).value, ys) else ys
  }

  /** `defaultYear`: the latest year present, or the current year when
      there is none. */
  function DefaultYear(years: seq<int>, currentYear: int): (y: int)
    requires StrictlyAscending(years)
    ensures |years| > 0 ==> y in years && forall x :: x in years ==> x <= y
    ensures |years| == 0 ==> y == currentYear
  {
    if |years| > 0 then years[|years| - 1] else currentYear
  }

  /** How transactions are grouped into periods. */
  datatype Period = Monthly | Weekly

  /** `monthOrder`: the short month names `toLocaleDateString` gives. */
  const MonthOrder: seq<string> := ["Jan", "Feb", "Mar", "Apr", "May", "Jun", "Jul", "Aug", "Sep", "Oct", "Nov", "Dec"]

  /** The position in `monthOrder` / `weekOrder` of a transaction's period
      key, which is how the totals are finally ordered. A month key is the
      month's short name (position month - 1); a week key is `Week n` with
      `n = ceil(day / 7)` (position n - 1, kept here as n). An unreadable
      date gives "Invalid Date" or "Week NaN", which neither list holds:
      position -1. */
  function Slot(p: Period, t: Transaction): (s: int)
    ensures s == -1 <==> ParseIso(t.date).None?
    ensures p.Monthly? && s != -1 ==> 0 <= s < 12 && s == DateOf(t).month - 1
    ensures p.Weekly? && s != -1 ==> 1 <= s <= 5 && 7 * (s - 1) < DateOf(t).day <= 7 * s
  {
    if ParseIso(t.date).None? then -1
    else
      var d := ParseIso(t.date).value;
      match p
      case Monthly => d.month - 1
      case Weekly => (d.day + 6) / 7
  }

  /** One period's running totals. */
  datatype Totals = Totals(income: real, expenses: real)

  const Zero := Totals(0.0, 0.0)

  /** Adds a transaction to its period: type "income" to the income, any
      other type to the expenses. */
  function Book(tot: Totals, t: Transaction): Totals
  {
    if t.kind == "income" then tot.(income := tot.income + t.amount)
    else tot.(expenses := tot.expenses + t.amount)
  }

  /** A transaction paired with the position of its period. */
  datatype Keyed = Keyed(slot: int, tx: Transaction)

  /** Each transaction with its period, in order. */
  function Key(txs: seq<Transaction>, p: Period): (ks: seq<Keyed>)
    ensures |ks| == |txs| && forall i :: 0 <= i < |txs| ==> ks[i] == Keyed(Slot(p, txs[i]), txs[i])
  {
    seq(|txs|, i requires 0 <= i < |txs| => Keyed(Slot(p, txs[i]), txs[i]))
  }

  /** The transactions of a keyed list, in order. */
  function Txs(ks: seq<Keyed>): (txs: seq<Transaction>)
    ensures |txs| == |ks| && forall i :: 0 <= i < |ks| ==> txs[i] == ks[i].tx
  {
    seq(|ks|, i requires 0 <= i < |ks| => ks[i].tx)
  }

  /** The totals object after the `forEach`: one entry per period met. */
  function Tally(ks: seq<Keyed>): map<int, Totals>
  {
    if |ks| == 0 then map[]
    else
      var m := Tally(ks[..|ks| - 1]);
      var k := ks[|ks| - 1];
      m[k.slot := Book(if k.slot in m then m[k.slot] else Zero, k.tx)]
  }

  /** The `forEach` that fills the totals object. */
  method Accumulate(txs: seq<Transaction>, p: Period) returns (m: map<int, Totals>)
    ensures m == Tally(Key(txs, p))
  {
    m := map[];
    for i := 0 to |txs|
      invariant m == Tally(Key(txs[..i], p))
    {
      var s := Slot(p, txs[i]);
      var current := if s in m then m[s] else Zero;
      m := m[s := Book(current, txs[i])];
      KeyStep(txs, p, i);
      TallySnoc(Key(txs[..i], p), Keyed(s, txs[i]));
    }
    assert txs[..|txs|] == txs;
  }

  lemma TallySnoc(ks: seq<Keyed>, k: Keyed)
    ensures Tally(ks + [k]) == Tally(ks)[k.slot := Book(if k.slot in Tally(ks) then Tally(ks)[k.slot] else Zero, k.tx)]
  {
    assert (ks + [k])[..|ks|] == ks;
  }

  lemma KeyStep(txs: seq<Transaction>, p: Period, i: nat)
    requires i < |txs|
    ensures Key(txs[..i + 1], p) == Key(txs[..i], p) + [Keyed(Slot(p, txs[i]), txs[i])]
  {
  }

  /** The transactions whose period is `s`, in order. */
  function InSlot(ks: seq<Keyed>, s: int): (r: seq<Transaction>)
    ensures forall t :: t in r <==> Keyed(s, t) in ks
  {
    if |ks| == 0 then []
    else
      var last := ks[|ks| - 1];
      assert forall k :: k in ks <==> k in ks[..|ks| - 1] || k == last by {
        assert ks == ks[..|ks| - 1] + [last];
      }
      InSlot(ks[..|ks| - 1], s) + (if last.slot == s then [last.tx] else [])
  }

  /** The totals object has an entry exactly for the periods some
      transaction falls in, and that entry holds the period's income
      transactions summed as income and all its other transactions summed
      as expenses. */
  lemma {:induction false} TallyMeaning(ks: seq<Keyed>)
    ensures forall s :: s in Tally(ks) <==> (exists k :: k in ks && k.slot == s)
    ensures forall s :: s in Tally(ks) ==>
      (Tally(ks)[s] == Breakdown(InSlot(ks, s)))
    decreases |ks|
  {
    if |ks| > 0 {
      var n := |ks| - 1;
      var init := ks[..n];
      var k := ks[n];
      TallyMeaning(init);
      assert forall j :: j in ks <==> j in init || j == k by {
        assert ks == init + [k];
      }
      var m := Tally(init);
      TallySnoc(init, k);
      forall s | s in Tally(ks)
        ensures Tally(ks)[s] ==
          Breakdown(InSlot(ks, s))
      {
        if k.slot == s {
          SlotSnoc(init, k);
        } else {
          assert InSlot(ks, s) == InSlot(init, s) + [] == InSlot(init, s);
        }
      }
    }
  }

  /** One more transaction in period `s` adds itself to that period's
      income or expenses. */
  lemma SlotSnoc(init: seq<Keyed>, k: Keyed)
    requires k.slot in Tally(init) ==>
      Tally(init)[k.slot] ==
      Breakdown(InSlot(init, k.slot))
    ensures Tally(init + [k])[k.slot] ==
      Breakdown(InSlot(init + [k], k.slot))
  {
    var ks := init + [k];
    TallySnoc(init, k);
    var before := InSlot(init, k.slot);
    var t := k.tx;
    assert InSlot(ks, k.slot) == before + [t];
    assert (before + [t])[..|before|] == before;
    if k.slot !in Tally(init) {
      assert before == [] by {
        if |before| > 0 {
          assert Keyed(k.slot, before[0]) in init;
          TallyHas(init, Keyed(k.slot, before[0]));
        }
      }
    }
    BookSnoc(before, t);
  }

  /** A list's income total and the total of everything else: what one
      period's entry holds. */
  function Breakdown(txs: seq<Transaction>): Totals
  {
    Totals(TotalOfKind(txs, "income"), AmountTotal(NotOfKind(txs, "income")))
  }

  lemma BookSnoc(before: seq<Transaction>, t: Transaction)
    ensures Breakdown(before + [t]) == Book(Breakdown(before), t)
  {
    var inc := OfKind(before, "income");
    var exp := NotOfKind(before, "income");
    assert (before + [t])[..|before|] == before;
    if t.kind == "income" {
      assert OfKind(before + [t], "income") == inc + [t];
      assert NotOfKind(before + [t], "income") == exp;
      AmountTotalSnoc(inc, t);
    } else {
      assert OfKind(before + [t], "income") == inc;
      assert NotOfKind(before + [t], "income") == exp + [t];
      AmountTotalSnoc(exp, t);
    }
  }

  /** Every period met has an entry. */
  lemma {:induction false} TallyHas(ks: seq<Keyed>, k: Keyed)
    requires k in ks
    ensures k.slot in Tally(ks)
    decreases |ks|
  {
    var n := |ks| - 1;
    if ks[n] != k {
      assert ks == ks[..n] + [ks[n]];
      TallyHas(ks[..n], k);
    }
  }

  /** One row of the chart data: a period and its totals. */
  datatype Point = Point(slot: int, income: real, expenses: real)

  /** `savings: data.income - data.expenses`. */
  function Savings(pt: Point): real
  {
    pt.income - pt.expenses
  }

  /** `Object.entries(totals)` sorted by position in the period order: the
      periods present, by ascending position. Positions are distinct per key,
      so the sort leaves exactly this order. */
  function Series(m: map<int, Totals>, lo: int, hi: int): (ps: seq<Point>)
    ensures |ps| <= if hi <= lo then 0 else hi - lo
    ensures forall i :: 0 <= i < |ps| ==>
      lo <= ps[i].slot < hi && ps[i].slot in m && m[ps[i].slot] == Totals(ps[i].income, ps[i].expenses)
    ensures forall i, j :: 0 <= i < j < |ps| ==> ps[i].slot < ps[j].slot
    decreases hi - lo
  {
    if hi <= lo then []
    else
      Series(m, lo, hi - 1) +
        (if hi - 1 in m then [Point(hi - 1, m[hi - 1].income, m[hi - 1].expenses)] else [])
  }

  /** Every period of the totals object inside the range has its row. */
  lemma {:induction false} SeriesCovers(m: map<int, Totals>, lo: int, hi: int, s: int)
    requires lo <= s < hi && s in m
    ensures exists i :: 0 <= i < |Series(m, lo, hi)| && Series(m, lo, hi)[i].slot == s
    decreases hi - lo
  {
    var front := Series(m, lo, hi - 1);
    var ps := front + (if hi - 1 in m then [Point(hi - 1, m[hi - 1].income, m[hi - 1].expenses)] else []);
    assert Series(m, lo, hi) == ps;
    if s == hi - 1 {
      assert ps[|front|].slot == s;
    } else {
      SeriesCovers(m, lo, hi - 1, s);
      var i :| 0 <= i < |front| && front[i].slot == s;
      assert ps[i] == front[i];
    }
  }

  function IncomeSum(ps: seq<Point>): real
  {
    if |ps| == 0 then 0.0 else IncomeSum(ps[..|ps| - 1]) + ps[|ps| - 1].income
  }

  function ExpenseSum(ps: seq<Point>): real
  {
    if |ps| == 0 then 0.0 else ExpenseSum(ps[..|ps| - 1]) + ps[|ps| - 1].expenses
  }

  /** The totals of the periods `lo .. hi - 1` added up, period by period. */
  function RangeTotals(m: map<int, Totals>, lo: int, hi: int): Totals
    decreases hi - lo
  {
    if hi <= lo then Zero
    else
      var r := RangeTotals(m, lo, hi - 1);
      if hi - 1 in m then Totals(r.income + m[hi - 1].income, r.expenses + m[hi - 1].expenses) else r
  }

  /** The rows' sums are the range's totals. */
  lemma {:induction false} SeriesSums(m: map<int, Totals>, lo: int, hi: int)
    ensures IncomeSum(Series(m, lo, hi)) == RangeTotals(m, lo, hi).income
    ensures ExpenseSum(Series(m, lo, hi)) == RangeTotals(m, lo, hi).expenses
    decreases hi - lo
  {
    if lo < hi {
      SeriesSums(m, lo, hi - 1);
      var front := Series(m, lo, hi - 1);
      var last := if hi - 1 in m then [Point(hi - 1, m[hi - 1].income, m[hi - 1].expenses)] else [];
      assert Series(m, lo, hi) == front + last;
      PointSums(front, last);
    }
  }

  lemma PointSums(a: seq<Point>, p: seq<Point>)
    requires |p| <= 1
    ensures IncomeSum(a + p) == IncomeSum(a) + (if |p| == 1 then p[0].income else 0.0)
    ensures ExpenseSum(a + p) == ExpenseSum(a) + (if |p| == 1 then p[0].expenses else 0.0)
  {
    if |p| == 0 {
      assert a + p == a;
    } else {
      assert (a + p)[..|a|] == a;
    }
  }

  /** Two totals objects that agree on a range have the same range totals. */
  lemma {:induction false} RangeAgree(m1: map<int, Totals>, m2: map<int, Totals>, lo: int, hi: int)
    requires forall s :: lo <= s < hi ==> (s in m1 <==> s in m2) && (s in m1 ==> m1[s] == m2[s])
    ensures RangeTotals(m1, lo, hi) == RangeTotals(m2, lo, hi)
    decreases hi - lo
  {
    if lo < hi {
      RangeAgree(m1, m2, lo, hi - 1);
    }
  }

  /** Replacing one period's totals changes the range totals by the
      difference. */
  lemma {:induction false} RangeUpdate(m: map<int, Totals>, s: int, v: Totals, lo: int, hi: int)
    requires lo <= s < hi
    ensures RangeTotals(m[s := v], lo, hi).income ==
      RangeTotals(m, lo, hi).income - (if s in m then m[s].income else 0.0) + v.income
    ensures RangeTotals(m[s := v], lo, hi).expenses ==
      RangeTotals(m, lo, hi).expenses - (if s in m then m[s].expenses else 0.0) + v.expenses
    decreases hi - lo
  {
    if s == hi - 1 {
      RangeAgree(m[s := v], m, lo, hi - 1);
    } else {
      RangeUpdate(m, s, v, lo, hi - 1);
    }
  }

  /** Nothing is lost or counted twice: when every transaction's period is
      in the range, the rows' income adds up to the total income and their
      expenses to the total of all other transactions. */
  lemma SeriesConserves(txs: seq<Transaction>, p: Period, lo: int, hi: int)
    requires forall t :: t in txs ==> lo <= Slot(p, t) < hi
    ensures IncomeSum(Series(Tally(Key(txs, p)), lo, hi)) == TotalOfKind(txs, "income")
    ensures ExpenseSum(Series(Tally(Key(txs, p)), lo, hi)) == AmountTotal(NotOfKind(txs, "income"))
  {
    var ks := Key(txs, p);
    SeriesSums(Tally(ks), lo, hi);
    forall k | k in ks ensures lo <= k.slot < hi {
      var i :| 0 <= i < |ks| && ks[i] == k;
      assert txs[i] in txs;
    }
    RangeConserves(ks, lo, hi);
    assert Txs(ks) == txs;
  }

  lemma {:induction false} RangeConserves(ks: seq<Keyed>, lo: int, hi: int)
    requires forall k :: k in ks ==> lo <= k.slot < hi
    ensures RangeTotals(Tally(ks), lo, hi) ==
      Breakdown(Txs(ks))
    decreases |ks|
  {
    if |ks| == 0 {
      RangeEmpty(lo, hi);
      assert Txs(ks) == [];
    } else {
      var n := |ks| - 1;
      assert forall j :: j in ks[..n] ==> j in ks;
      RangeConserves(ks[..n], lo, hi);
      RangeStep(ks, lo, hi);
    }
  }

  lemma RangeStep(ks: seq<Keyed>, lo: int, hi: int)
    requires |ks| > 0 && lo <= ks[|ks| - 1].slot < hi
    requires RangeTotals(Tally(ks[..|ks| - 1]), lo, hi) == Breakdown(Txs(ks[..|ks| - 1]))
    ensures RangeTotals(Tally(ks), lo, hi) == Breakdown(Txs(ks))
  {
    var init := ks[..|ks| - 1];
    var k := ks[|ks| - 1];
    var m := Tally(init);
    var cur := if k.slot in m then m[k.slot] else Zero;
    RangeUpdate(m, k.slot, Book(cur, k.tx), lo, hi);
    assert Txs(ks) == Txs(init) + [k.tx];
    BookSnoc(Txs(init), k.tx);
    BookShift(RangeTotals(Tally(ks), lo, hi), RangeTotals(m, lo, hi), cur, k.tx);
  }

  /** Booking into one period moves the range totals as booking into them
      directly would. */
  lemma BookShift(r': Totals, r: Totals, cur: Totals, t: Transaction)
    requires r'.income == r.income - cur.income + Book(cur, t).income
    requires r'.expenses == r.expenses - cur.expenses + Book(cur, t).expenses
    ensures r' == Book(r, t)
  {
  }

  lemma {:induction false} RangeEmpty(lo: int, hi: int)
    ensures RangeTotals(map[], lo, hi) == Zero == Breakdown([])
    decreases hi - lo
  {
    if lo < hi {
      RangeEmpty(lo, hi - 1);
    }
  }

  /** The categories of a list of transactions, in order. */
  function Names(txs: seq<Transaction>): (r: seq<string>)
    ensures |r| == |txs| && forall i :: 0 <= i < |txs| ==> r[i] == txs[i].category
  {
    seq(|txs|, i requires 0 <= i < |txs| => txs[i].category)
  }

  /** The transactions of one category, in order. */
  function InCategory(txs: seq<Transaction>, c: string): (r: seq<Transaction>)
    ensures forall t :: t in r <==> t in txs && t.category == c
    ensures forall t {:trigger multiset(r)[t]} :: multiset(r)[t] == if t.category == c then multiset(txs)[t] else 0
  {
    if |txs| == 0 then []
    else
      var last := txs[|txs| - 1];
      assert multiset(txs) == multiset(txs[..|txs| - 1]) + multiset{last} by {
        assert txs == txs[..|txs| - 1] + [last];
      }
      assert forall t :: t in txs <==> t in txs[..|txs| - 1] || t == last by {
        assert txs == txs[..|txs| - 1] + [last];
      }
      InCategory(txs[..|txs| - 1], c) + (if last.category == c then [last] else [])
  }

  /** The sum of one category's amounts, left to right. */
  function CategoryTotal(txs: seq<Transaction>, c: string): real
  {
    AmountTotal(InCategory(txs, c))
  }

  /** A category with no transactions sums to 0. */
  lemma CategoryTotalAbsent(txs: seq<Transaction>, c: string)
    requires c !in Names(txs)
    ensures CategoryTotal(txs, c) == 0.0
  {
  }

  /** The loop `acc[t.category] = (acc[t.category] || 0) + t.amount`: the
      categories in order of first appearance (the key order of the
      object) and each one's total. */
  method SumByCategory(txs: seq<Transaction>) returns (order: seq<string>, totals: map<string, real>)
    ensures order == Dedup(Names(txs))
    ensures forall c :: c in totals <==> c in Names(txs)
    ensures forall c :: c in totals ==> totals[c] == CategoryTotal(txs, c)
  {
    order := [];
    totals := map[];
    for i := 0 to |txs|
      invariant Tallied(txs[..i], order, totals)
    {
      var t := txs[i];
      ghost var order0, totals0 := order, totals;
      if t.category !in totals {
        order := order + [t.category];
        totals := totals[t.category := t.amount];
      } else {
        totals := totals[t.category := totals[t.category] + t.amount];
      }
      TallyStep(txs, i, order0, totals0, order, totals);
    }
    assert txs[..|txs|] == txs;
    SumsMeaning(txs);
  }

  /** The loop's state after the transactions `done`. */
  ghost predicate Tallied(done: seq<Transaction>, order: seq<string>, totals: map<string, real>)
  {
    order == Dedup(Names(done)) && totals == Sums(done)
  }

  /** The category sums as the loop builds them, one transaction at a
      time. */
  ghost function Sums(done: seq<Transaction>): map<string, real>
  {
    if |done| == 0 then map[]
    else
      var m := Sums(done[..|done| - 1]);
      var t := done[|done| - 1];
      m[t.category := if t.category in m then m[t.category] + t.amount else t.amount]
  }

  /** One turn of the loop keeps `Tallied`. */
  lemma TallyStep(txs: seq<Transaction>, i: nat, order: seq<string>, totals: map<string, real>,
                  order': seq<string>, totals': map<string, real>)
    requires i < |txs| && Tallied(txs[..i], order, totals)
    requires var c := txs[i].category;
      order' == (if c in totals then order else order + [c]) &&
      totals' == totals[c := if c in totals then totals[c] + txs[i].amount else txs[i].amount]
    ensures Tallied(txs[..i + 1], order', totals')
  {
    var pre := txs[..i + 1];
    assert pre[..i] == txs[..i] && pre[i] == txs[i];
    var c := txs[i].category;
    assert Sums(pre) == totals[c := if c in totals then totals[c] + txs[i].amount else txs[i].amount];
    OrderStep(txs, i, order, totals);
  }

  /** One more transaction appends its category to the order unless the
      totals already hold it. */
  lemma OrderStep(txs: seq<Transaction>, i: nat, order: seq<string>, totals: map<string, real>)
    requires i < |txs| && Tallied(txs[..i], order, totals)
    ensures Dedup(Names(txs[..i + 1])) ==
      if txs[i].category in totals then order else order + [txs[i].category]
  {
    NamesStep(txs, i);
    SumsMeaning(txs[..i]);
  }

  /** `Sums` holds exactly the categories present, each with its total. */
  lemma {:induction false} SumsMeaning(done: seq<Transaction>)
    ensures forall c :: c in Sums(done) <==> c in Names(done)
    ensures forall c :: c in Sums(done) ==> Sums(done)[c] == CategoryTotal(done, c)
    decreases |done|
  {
    if |done| > 0 {
      var n := |done| - 1;
      SumsMeaning(done[..n]);
      forall x
        ensures x in Sums(done) <==> x in Names(done)
        ensures x in Sums(done) ==> Sums(done)[x] == CategoryTotal(done, x)
      {
        SumStep(done, x);
      }
    }
  }

  /** One category's entry in `Sums`, one transaction further on. */
  lemma SumStep(done: seq<Transaction>, x: string)
    requires |done| > 0
    requires var init := done[..|done| - 1];
      (x in Sums(init) <==> x in Names(init)) &&
      (x in Sums(init) ==> Sums(init)[x] == CategoryTotal(init, x))
    ensures x in Sums(done) <==> x in Names(done)
    ensures x in Sums(done) ==> Sums(done)[x] == CategoryTotal(done, x)
  {
    var n := |done| - 1;
    var t := done[n];
    var m := Sums(done[..n]);
    SumsSnoc(done);
    assert done[..n + 1] == done;
    NamesStep(done, n);
    TotalStep(done, n, x);
    if x == t.category && x !in m {
      CategoryTotalAbsent(done[..n], x);
    }
  }

  lemma SumsSnoc(done: seq<Transaction>)
    requires |done| > 0
    ensures var m := Sums(done[..|done| - 1]);
      var t := done[|done| - 1];
      Sums(done) == m[t.category := if t.category in m then m[t.category] + t.amount else t.amount]
  {
  }

  /** How one more transaction changes the names. */
  lemma NamesStep(txs: seq<Transaction>, i: nat)
    requires i < |txs|
    ensures Names(txs[..i + 1]) == Names(txs[..i]) + [txs[i].category]
    ensures Dedup(Names(txs[..i + 1])) ==
      var d := Dedup(Names(txs[..i]));
      if txs[i].category in d then d else d + [txs[i].category]
  {
    var xs := Names(txs[..i + 1]);
    assert xs == Names(txs[..i]) + [txs[i].category];
    assert xs[..|xs| - 1] == Names(txs[..i]);
  }

  /** How one more transaction changes one category's sum. */
  lemma TotalStep(txs: seq<Transaction>, i: nat, c: string)
    requires i < |txs|
    ensures CategoryTotal(txs[..i + 1], c) ==
      CategoryTotal(txs[..i], c) + (if c == txs[i].category then txs[i].amount else 0.0)
  {
    var before := InCategory(txs[..i], c);
    assert txs[..i + 1][..i] == txs[..i];
    assert txs[..i + 1][i] == txs[i];
    if c == txs[i].category {
      assert InCategory(txs[..i + 1], c) == before + [txs[i]];
      AmountTotalSnoc(before, txs[i]);
    } else {
      assert InCategory(txs[..i + 1], c) == before + [] == before;
    }
  }

  /** A category and its total. */
  datatype CategorySum = CategorySum(category: string, amount: real)

  function Amount(e: CategorySum): real { e.amount }

  /** `Object.entries` of the category sums: each category with its total,
      in order of first appearance. */
  function CategoryEntries(txs: seq<Transaction>): seq<CategorySum>
  {
    var order := Dedup(Names(txs));
    seq(|order|, i requires 0 <= i < |order| => CategorySum(order[i], CategoryTotal(txs, order[i])))
  }

  /** The sums object read back as its entries. */
  method CategorySums(txs: seq<Transaction>) returns (entries: seq<CategorySum>)
    ensures entries == CategoryEntries(txs)
  {
    var order, totals := SumByCategory(txs);
    entries := seq(|order|, i requires 0 <= i < |order| => CategorySum(order[i], totals[order[i]]));
    assert forall i :: 0 <= i < |order| ==> order[i] in totals;
  }
}
