/**
 * The transactions page: the search and the two filters, the list sorted
 * newest first, the "show more" paging of fifteen rows at a time, and the
 * add form's check and reset.
 */
module TransactionsPage {
  import opened Common
  import opened Text
  import opened Sorting

  /** Rows shown at first and added by each "show more". */
  const PageSize: nat := 15

  /** The categories offered by the add form and the category filter. */
  const Categories: seq<string> := [
    "Sales Revenue", "Consulting", "Investment", "Payroll", "Office Rent",
    "Marketing", "Technology", "Utilities", "Travel", "Professional Services",
    "Equipment", "Insurance", "Training", "Other"
  ]

  /** The search term occurs, ignoring case, in the description or the
      category. */
  predicate MatchesSearch(t: Transaction, term: string)
  {
    Includes(ToLower(t.description), ToLower(term)) || Includes(ToLower(t.category), ToLower(term))
  }

  /** The three conditions of the list's `filter`; "all" switches a filter
      off. */
  predicate Matches(t: Transaction, term: string, kind: string, category: string)
  {
    MatchesSearch(t, term) && (kind == "all" || t.kind == kind) && (category == "all" || t.category == category)
  }

  /** The transactions that pass the filters, in list order. */
  function Kept(txs: seq<Transaction>, term: string, kind: string, category: string): (r: seq<Transaction>)
    ensures forall t :: t in r <==> t in txs && Matches(t, term, kind, category)
    ensures |r| <= |txs|
    ensures forall t {:trigger multiset(r)[t]} :: multiset(r)[t] == if Matches(t, term, kind, category) then multiset(txs)[t] else 0
  {
    if |txs| == 0 then []
    else
      var last := txs[|txs| - 1];
      assert multiset(txs) == multiset(txs[..|txs| - 1]) + multiset{last} by {
        assert txs == txs[..|txs| - 1] + [last];
      }
      assert forall t :: t in txs <==> t in txs[..|txs| - 1] || t == last by {
        assert txs == txs[..|txs| - 1] + [last];
      }
      Kept(txs[..|txs| - 1], term, kind, category) + (if Matches(last, term, kind, category) then [last] else [])
  }

  /** `new Date(t.date).getTime()` in days. Only ISO calendar dates are
      read; any other date is put on day 0 here, where `new Date` gives an
      invalid date whose NaN differences the sort reads as "equal". */
  function DateKey(t: Transaction): real
  {
    var d := ParseIso(t.date);
    if d.Some? then DayNumber(d.value) as real else 0.0
  }

  /** `filteredTransactions`: the kept transactions sorted by date, newest
      first, same-day ones in list order. */
  function Filtered(txs: seq<Transaction>, term: string, kind: string, category: string): seq<Transaction>
  {
    SortDesc(Kept(txs, term, kind, category), DateKey)
  }

  /** The list holds exactly the matching transactions, each as often as in
      the input, newest first. */
  lemma FilteredMeaning(txs: seq<Transaction>, term: string, kind: string, category: string)
    ensures var r := Filtered(txs, term, kind, category);
      multiset(r) == multiset(Kept(txs, term, kind, category)) &&
      (forall t :: t in r <==> t in txs && Matches(t, term, kind, category)) &&
      SortedDesc(r, DateKey)
  {
    var kept := Kept(txs, term, kind, category);
    SortDescSorted(kept, DateKey);
    var r := Filtered(txs, term, kind, category);
    assert forall t :: t in r <==> t in multiset(r);
    assert forall t :: t in kept <==> t in multiset(kept);
  }

  /** An empty search and no filters keep every transaction. */
  lemma NoFilterKeepsAll(txs: seq<Transaction>)
    ensures Kept(txs, "", "all", "all") == txs
  {
    forall t: Transaction ensures Matches(t, "", "all", "all") {
      IncludesEmpty(ToLower(t.description));
      assert ToLower("") == "";
    }
    KeptAll(txs, "", "all", "all");
  }

  lemma {:induction false} KeptAll(txs: seq<Transaction>, term: string, kind: string, category: string)
    requires forall t :: Matches(t, term, kind, category)
    ensures Kept(txs, term, kind, category) == txs
    decreases |txs|
  {
    if |txs| > 0 {
      KeptAll(txs[..|txs| - 1], term, kind, category);
      assert txs == txs[..|txs| - 1] + [txs[|txs| - 1]];
    }
  }

  /** A transaction that fails the type filter is never listed. */
  lemma OtherTypeHidden(txs: seq<Transaction>, t: Transaction, term: string, kind: string, category: string)
    requires kind != "all" && t.kind != kind
    ensures t !in Filtered(txs, term, kind, category)
  {
    FilteredMeaning(txs, term, kind, category);
  }

  /** The add form's fields, as the inputs hold them. */
  datatype Form = Form(kind: string, category: string, amount: string, description: string)

  const EmptyForm := Form("expense", "", "", "")

  /** What submitting the form does: nothing, adds the draft, or adds a
      transaction whose amount `parseFloat` cannot read (NaN). */
  datatype Submission = NotSubmitted | Add(draft: Draft) | AddUnreadable(form: Form)

  /** The page's own state. */
  class TransactionsView {
    var showAddModal: bool
    var searchTerm: string
    var filterType: string
    var filterCategory: string
    var displayCount: nat
    var form: Form

    constructor()
      ensures !showAddModal && searchTerm == "" && filterType == "all" && filterCategory == "all"
      ensures displayCount == PageSize && form == EmptyForm
    {
      showAddModal := false;
      searchTerm := "";
      filterType := "all";
      filterCategory := "all";
      displayCount := PageSize;
      form := EmptyForm;
    }

    /** The list for the current filters. */
    function List(txs: seq<Transaction>): seq<Transaction>
      reads this
    {
      Filtered(txs, searchTerm, filterType, filterCategory)
    }

    /** `displayedTransactions`: the first `displayCount` rows. */
    function Displayed(txs: seq<Transaction>): (shown: seq<Transaction>)
      reads this
      ensures |shown| == if |List(txs)| < displayCount then |List(txs)| else displayCount
      ensures shown == List(txs)[..|shown|]
    {
      var list := List(txs);
      if |list| < displayCount then list else list[..displayCount]
    }

    /** `hasMoreTransactions`. */
    function HasMore(txs: seq<Transaction>): bool
      reads this
    {
      |List(txs)| > displayCount
    }

    /** More rows exist exactly when some of the list is not shown. */
    lemma HasMoreMeansHidden(txs: seq<Transaction>)
      ensures HasMore(txs) <==> |Displayed(txs)| < |List(txs)|
    {
    }

    /** `handleShowMore`. */
    method ShowMore()
      modifies this
      ensures displayCount == old(displayCount) + PageSize
      ensures searchTerm == old(searchTerm) && filterType == old(filterType) && filterCategory == old(filterCategory)
      ensures form == old(form) && showAddModal == old(showAddModal)
    {
      displayCount := displayCount + PageSize;
    }

    /** `handleResetDisplayCount`. */
    method ResetDisplayCount()
      modifies this
      ensures displayCount == PageSize
      ensures searchTerm == old(searchTerm) && filterType == old(filterType) && filterCategory == old(filterCategory)
      ensures form == old(form) && showAddModal == old(showAddModal)
    {
      displayCount := PageSize;
    }

    /** Typing in the search box; the effect on `[searchTerm, filterType,
        filterCategory]` puts the count back to fifteen when the term
        changed. */
    method SetSearch(term: string)
      modifies this
      ensures searchTerm == term && filterType == old(filterType) && filterCategory == old(filterCategory)
      ensures displayCount == if term != old(searchTerm) then PageSize else old(displayCount)
      ensures form == old(form) && showAddModal == old(showAddModal)
    {
      if term != searchTerm {
        displayCount := PageSize;
      }
      searchTerm := term;
    }

    /** Choosing a type in the type filter. */
    method SetType(kind: string)
      modifies this
      ensures filterType == kind && searchTerm == old(searchTerm) && filterCategory == old(filterCategory)
      ensures displayCount == if kind != old(filterType) then PageSize else old(displayCount)
      ensures form == old(form) && showAddModal == old(showAddModal)
    {
      if kind != filterType {
        displayCount := PageSize;
      }
      filterType := kind;
    }

    /** Choosing a category in the category filter. */
    method SetCategory(category: string)
      modifies this
      ensures filterCategory == category && searchTerm == old(searchTerm) && filterType == old(filterType)
      ensures displayCount == if category != old(filterCategory) then PageSize else old(displayCount)
      ensures form == old(form) && showAddModal == old(showAddModal)
    {
      if category != filterCategory {
        displayCount := PageSize;
      }
      filterCategory := category;
    }

    /** Opening the modal and typing into the form. */
    method Open()
      modifies this
      ensures showAddModal
      ensures searchTerm == old(searchTerm) && filterType == old(filterType) && filterCategory == old(filterCategory)
      ensures displayCount == old(displayCount) && form == old(form)
    {
      showAddModal := true;
    }

    /** Cancel, or a click on the overlay: the modal closes and the form keeps what was typed. */
    method Close()
      modifies this
      ensures !showAddModal
      ensures searchTerm == old(searchTerm) && filterType == old(filterType) && filterCategory == old(filterCategory)
      ensures displayCount == old(displayCount) && form == old(form)
    {
      showAddModal := false;
    }

    method Edit(f: Form)
      modifies this
      ensures form == f
      ensures searchTerm == old(searchTerm) && filterType == old(filterType) && filterCategory == old(filterCategory)
      ensures displayCount == old(displayCount) && showAddModal == old(showAddModal)
    {
      form := f;
    }

    /** `handleSubmit`: a complete form goes to `onAddTransaction`, is
        emptied, and the modal closes; otherwise nothing happens. */
    method Submit() returns (s: Submission)
      modifies this
      ensures s == SubmissionOf(old(form))
      ensures s != NotSubmitted ==> form == EmptyForm && !showAddModal
      ensures s == NotSubmitted ==> form == old(form) && showAddModal == old(showAddModal)
      ensures searchTerm == old(searchTerm) && filterType == old(filterType) && filterCategory == old(filterCategory)
      ensures displayCount == old(displayCount)
    {
      s := SubmissionOf(form);
      if s != NotSubmitted {
        form := EmptyForm;
        showAddModal := false;
      }
    }
  }

  /** Amount, category and description are all filled in. */
  predicate Complete(f: Form)
  {
    f.amount != "" && f.category != "" && f.description != ""
  }

  /** What a submitted form sends: nothing when incomplete, otherwise the
      fields with the amount read by `parseFloat`. */
  function SubmissionOf(f: Form): (s: Submission)
    ensures s == NotSubmitted <==> !Complete(f)
    ensures s.Add? <==> Complete(f) && ParseFloat(f.amount).Some?
    ensures s.Add? ==> s.draft == Draft(f.kind, f.category, ParseFloat(f.amount).value, f.description)
    ensures s.AddUnreadable? ==> s.form == f
  {
    if !Complete(f) then NotSubmitted
    else
      var amount := ParseFloat(f.amount);
      if amount.Some? then Add(Draft(f.kind, f.category, amount.value, f.description)) else AddUnreadable(f)
  }

  /** The empty form sends nothing, and a filled-in whole number is sent as
      that number. */
  lemma SubmitExamples(kind: string, category: string, digits: string, description: string)
    requires category != "" && description != "" && |digits| > 0 && AllDigits(digits)
    ensures SubmissionOf(EmptyForm) == NotSubmitted
    ensures SubmissionOf(Form(kind, category, digits, description)) ==
      Add(Draft(kind, category, DigitsValue(digits) as real, description))
  {
    ParseFloatDigits(digits);
  }

  /** On a fresh page every transaction is listed; fifteen rows show at
      first, a "show more" reveals up to fifteen more, and what was shown
      stays shown in the same place. */
  method ShowMoreExtends(txs: seq<Transaction>) returns (before: seq<Transaction>, after: seq<Transaction>)
    ensures |before| == if |txs| < PageSize then |txs| else PageSize
    ensures |after| == if |txs| < 2 * PageSize then |txs| else 2 * PageSize
    ensures before == after[..|before|]
  {
    var view := new TransactionsView();
    NoFilterKeepsAll(txs);
    ghost var list := view.List(txs);
    assert |list| == |txs|;
    before := view.Displayed(txs);
    view.ShowMore();
    assert view.List(txs) == list;
    after := view.Displayed(txs);
    PrefixOfPrefix(list, |before|, |after|);
  }

  lemma PrefixOfPrefix(s: seq<Transaction>, m: nat, n: nat)
    requires m <= n <= |s|
    ensures s[..n][..m] == s[..m]
  {
  }
}
