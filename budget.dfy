/**
 * The budget page: each budget line's progress against what was spent in
 * the chosen year, the colour and remaining amount shown with it, the
 * over-budget banner, and the inline editor for a line's amount.
 */
module BudgetPage {
  import opened Common
  import opened Text
  import opened Tallies

  /** `getProgressPercentage`: `Math.min((spent / budget) * 100, 100)`,
      with the number cases a zero or negative budget gives. */
  function ProgressPercentage(spent: real, budget: real): (pct: JsNum)
    ensures !pct.PosInf?
    ensures pct.Fin? ==> pct.r <= 100.0
    ensures budget > 0.0 ==> pct.Fin? && (spent >= 0.0 ==> 0.0 <= pct.r)
    ensures budget > 0.0 ==> (pct.r == 100.0 <==> spent >= budget)
    ensures budget > 0.0 && spent < budget ==> pct.r * budget == spent * 100.0
    ensures budget == 0.0 ==>
      (spent > 0.0 ==> pct == Fin(100.0)) && (spent == 0.0 ==> pct.NaN?) && (spent < 0.0 ==> pct.NegInf?)
  {
    Min(Mul(Div(Fin(spent), Fin(budget)), Fin(100.0)), Fin(100.0))
  }

  /** `getProgressColor`: red from 100, amber from 80, green below (and for
      NaN, which fails both tests). */
  function ProgressColor(pct: JsNum): (color: string)
    ensures color == Red <==> Ge(pct, Fin(100.0))
    ensures color == Amber <==> Ge(pct, Fin(80.0)) && !Ge(pct, Fin(100.0))
    ensures color == Green <==> !Ge(pct, Fin(80.0))
  {
    if Ge(pct, Fin(100.0)) then Red else if Ge(pct, Fin(80.0)) then Amber else Green
  }

  /** For a positive budget the bar is red exactly when the spending has
      reached the budget, and amber from 80% of it up to the budget. */
  lemma ProgressColorBands(spent: real, budget: real)
    requires budget > 0.0
    ensures ProgressColor(ProgressPercentage(spent, budget)) == Red <==> spent >= budget
    ensures ProgressColor(ProgressPercentage(spent, budget)) == Amber <==> 0.8 * budget <= spent < budget
  {
    var pct := ProgressPercentage(spent, budget);
    if spent < budget {
      RatioAtLeast(pct.r, budget, spent, 80.0);
    }
  }

  /** `getRemainingAmount`: `Math.max(budget - spent, 0)`. */
  function RemainingAmount(budget: real, spent: real): (r: real)
    ensures r >= 0.0
    ensures spent <= budget ==> r == budget - spent
    ensures spent > budget ==> r == 0.0
  {
    if budget - spent >= 0.0 then budget - spent else 0.0
  }

  /** `categoryToYearSpent`: the expense totals per category among the
      transactions of the chosen year. */
  method CategoryToYearSpent(txs: seq<Transaction>, year: int) returns (spent: map<string, real>)
    ensures forall c :: c in spent <==> c in Names(OfKind(InYear(txs, year), "expense"))
    ensures forall c :: c in spent ==> spent[c] == CategoryTotal(OfKind(InYear(txs, year), "expense"), c)
  {
    var expenses := OfKind(InYear(txs, year), "expense");
    var _, totals := SumByCategory(expenses);
    spent := totals;
  }

  /** `categoryToYearSpent[budget.category] || 0`. */
  function YearSpent(spent: map<string, real>, category: string): real
  {
    if category in spent then spent[category] else 0.0
  }

  /** What a budget line shows: the year's spending in its category, the
      progress and its colour, what remains, and the over-budget banner
      with the amount it prints. */
  datatype Card = Card(
    yearSpent: real, percentage: JsNum, color: string, remaining: real,
    overBudget: bool, overrun: real)

  /** One budget line of the page. The banner's amount is computed from
      the line's own `spent`, not from the year's spending that decides
      whether the banner shows. */
  function BudgetCard(b: Budget, spent: map<string, real>): (card: Card)
    ensures card.overBudget <==> card.yearSpent > b.budget
    ensures card.remaining == RemainingAmount(b.budget, card.yearSpent)
    ensures card.color == ProgressColor(card.percentage)
    ensures card.overrun == b.spent - b.budget
  {
    var ys := YearSpent(spent, b.category);
    var pct := ProgressPercentage(ys, b.budget);
    Card(ys, pct, ProgressColor(pct), RemainingAmount(b.budget, ys), ys > b.budget, b.spent - b.budget)
  }

  /** A line's year spending is the sum of the year's expenses in its
      category, 0 when there are none; so the banner shows exactly when
      that sum exceeds the budget. */
  method CardFor(txs: seq<Transaction>, year: int, b: Budget) returns (card: Card)
    ensures card.yearSpent == CategoryTotal(OfKind(InYear(txs, year), "expense"), b.category)
    ensures card.overBudget <==> CategoryTotal(OfKind(InYear(txs, year), "expense"), b.category) > b.budget
    ensures card.remaining >= 0.0
  {
    var spent := CategoryToYearSpent(txs, year);
    card := BudgetCard(b, spent);
    if b.category !in spent {
      CategoryTotalAbsent(OfKind(InYear(txs, year), "expense"), b.category);
    }
  }

  /** The banner can print a negative overrun: the year's spending decides
      that it shows, but the amount is taken from the line's `spent`. */
  lemma OverrunCanBeNegative()
    ensures var card := BudgetCard(Budget("Travel", 6000.0, 4800.0, "#ec4899"), map["Travel" := 7000.0]);
      card.overBudget && card.overrun == -1200.0
  {
  }

  /** `editAmount` is accepted by `handleEditSave`: non-empty, `Number` of it
      is not NaN, and `parseFloat` of it is above 0. */
  predicate Accepted(text: string)
  {
    text != "" && IsNumericText(text) && ParseFloat(text).Some? && ParseFloat(text).value > 0.0
  }

  /** The inline editor's state: the category being edited (null when none)
      and the amount text in its input. */
  class BudgetEditor {
    var editing: Option<string>
    var editAmount: string

    constructor()
      ensures editing.None? && editAmount == ""
    {
      editing := None;
      editAmount := "";
    }

    /** `handleEditStart`: edit this line, starting from `shown`, the
        text of its current budget. */
    method EditStart(b: Budget, shown: string)
      modifies this
      ensures editing == Some(b.category) && editAmount == shown
    {
      editing := Some(b.category);
      editAmount := shown;
    }

    /** Typing in the amount input. */
    method SetAmount(text: string)
      modifies this
      ensures editAmount == text && editing == old(editing)
    {
      editAmount := text;
    }

    /** `handleEditSave`: an accepted amount is handed on as the new budget
        of the edited category and the editor closes; anything else leaves
        the editor as it was and changes no budget. */
    method EditSave() returns (update: Option<(Option<string>, real)>)
      modifies this
      ensures Accepted(old(editAmount)) ==>
        update == Some((old(editing), ParseFloat(old(editAmount)).value)) &&
        editing.None? && editAmount == ""
      ensures !Accepted(old(editAmount)) ==>
        update.None? && editing == old(editing) && editAmount == old(editAmount)
      ensures update.Some? ==> update.value.1 > 0.0
    {
      if Accepted(editAmount) {
        update := Some((editing, ParseFloat(editAmount).value));
        editing := None;
        editAmount := "";
      } else {
        update := None;
      }
    }

    /** `handleEditCancel`. */
    method EditCancel()
      modifies this
      ensures editing.None? && editAmount == ""
    {
      editing := None;
      editAmount := "";
    }
  }

  /** Opening the editor on a whole-number budget and saving it unchanged
      hands back that same budget for that category. */
  method EditRoundTrip(b: Budget) returns (update: Option<(Option<string>, real)>)
    requires IsInteger(b.budget) && b.budget >= 1.0
    ensures update == Some((Some(b.category), b.budget))
  {
    var editor := new BudgetEditor();
    var n: nat := b.budget.Floor;
    var shown := NatToString(n);
    editor.EditStart(b, shown);
    ParseFloatDigits(shown);
    NatToStringValue(n);
    update := editor.EditSave();
  }

  /** Blank text, text that is not a number, and zero are refused. */
  lemma RefusedAmounts()
    ensures !Accepted("") && !Accepted("abc") && !Accepted("0")
  {
    RefusesZero();
    RefusesText();
  }

  lemma RefusesZero()
    ensures !Accepted("0")
  {
    ParseFloatDigits("0");
    assert DigitsValue("0") == 0;
  }

  lemma RefusesText()
    ensures !Accepted("abc")
  {
    assert !IsSpace('a') && !IsDigit('a');
    assert TrimStart("abc") == "abc";
    assert DigitRun("abc") == "";
  }
}
