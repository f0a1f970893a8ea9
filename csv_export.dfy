/**
 * `transactionsToCsv`: the transactions are grouped by normalised date into
 * one row per date with eleven amount columns (three income, eight expense),
 * display categories are mapped to columns through a fixed table, and the
 * rows are written, oldest date first, under a twelve-name header.
 */
module CsvExport {
  import opened Common
  import opened Text
  import Sorting

  // ---------------------------------------------------------------------
  // Columns and the category table

  const IncomeColumns: seq<string> := ["sales", "consulting", "investment"]

  const ExpenseColumns: seq<string> :=
    ["payroll", "rent", "utilities", "technology", "marketing", "travel", "professional_services", "misc"]

  /** The eleven amount columns, in output order. */
  const Columns: seq<string> := IncomeColumns + ExpenseColumns

  /** The header names: `date` then the amount columns. */
  const Headers: seq<string> := ["date"] + Columns

  /** `categoryMapping`: display category to column. */
  const CategoryMapping: map<string, string> := map[
    "Sales Revenue" := "sales",
    "Consulting" := "consulting",
    "Investment" := "investment",
    "Payroll" := "payroll",
    "Office Rent" := "rent",
    "Utilities" := "utilities",
    "Technology" := "technology",
    "Marketing" := "marketing",
    "Travel" := "travel",
    "Professional Services" := "professional_services",
    "Other" := "misc",
    "Equipment" := "misc",
    "Insurance" := "misc",
    "Training" := "misc"
  ]

  /** `categoryMapping[category] || "misc"`: always one of the columns. */
  function CsvCategory(category: string): (col: string)
    ensures col in Columns
    ensures category !in CategoryMapping ==> col == "misc"
  {
    if category in CategoryMapping then CategoryMapping[category] else "misc"
  }

  /** The column a transaction's amount is added to: an income transaction
      only to an income column, an `"expense"` transaction only to an
      expense column, anything else to none. */
  function ColumnFor(t: Transaction): (j: Option<nat>)
    ensures j.Some? ==> j.value < |Columns| && Columns[j.value] == CsvCategory(t.category)
    ensures j.Some? && t.kind == "income" ==> j.value < |IncomeColumns|
    ensures j.Some? && t.kind != "income" ==> |IncomeColumns| <= j.value
  {
    var col := CsvCategory(t.category);
    if t.kind == "income" && col in IncomeColumns then Some(FirstIndex(Columns, col))
    else if t.kind == "expense" && col in ExpenseColumns then Some(FirstIndex(Columns, col))
    else None
  }

  /** A transaction lands in some column exactly when its type and its
      mapped column agree. */
  lemma ColumnForSome(t: Transaction)
    ensures ColumnFor(t).Some? <==>
      (t.kind == "income" && CsvCategory(t.category) in IncomeColumns) ||
      (t.kind == "expense" && CsvCategory(t.category) in ExpenseColumns)
  {
  }

  // ---------------------------------------------------------------------
  // Date normalisation

  /** `String(v)` of what `parseInt` returned. */
  function NumText(v: Option<int>): string
  {
    match v
    case None => "NaN"
    case Some(n) => IntToString(n)
  }

  /** `parseInt(parts[i], 10)`, NaN for a missing part. */
  function PartInt(parts: seq<string>, i: nat): Option<int>
  {
    if i < |parts| then ParseInt(parts[i]) else None
  }

  /** `String` of the `i`-th name bound by `const [m, d, y] = parts.map(...)`:
      "undefined" when the text has fewer parts, "NaN" for a part
      `parseInt` cannot read. */
  function PartText(parts: seq<string>, i: nat): (r: string)
    ensures i >= |parts| ==> r == "undefined"
    ensures i < |parts| && ParseInt(parts[i]).None? ==> r == "NaN"
    ensures i < |parts| && ParseInt(parts[i]).Some? ==> r == IntToString(ParseInt(parts[i]).value)
  {
    if i < |parts| then NumText(ParseInt(parts[i])) else "undefined"
  }

  /** A timestamp keeps its part before `T`; an `M/D/YYYY` text becomes
      `YYYY-MM-DD` with month and day padded to two places; anything else is
      kept as it is. */
  function NormalizeExportDate(date: string): (r: string)
    ensures 'T' in date ==> r == date[..IndexOf(date, 'T')]
    ensures 'T' !in date && '/' in date ==> var parts := Split(date, '/');
      r == PartText(parts, 2) + "-" + PadStart2(PartText(parts, 0)) + "-" + PadStart2(PartText(parts, 1))
    ensures 'T' !in date && '/' !in date ==> r == date
  {
    if 'T' in date then Split(date, 'T')[0]
    else if '/' in date then
      var parts := Split(date, '/');
      PartText(parts, 2) + "-" + PadStart2(PartText(parts, 0)) + "-" + PadStart2(PartText(parts, 1))
    else date
  }

  /** `M/D` without a year: the year prints as "undefined". */
  lemma ExportDateNoYear(m: nat, d: nat)
    ensures NormalizeExportDate(NatToString(m) + "/" + NatToString(d)) ==
      "undefined" + "-" + PadStart2(NatToString(m)) + "-" + PadStart2(NatToString(d))
  {
    var a, b := NatToString(m), NatToString(d);
    TwoParts(a, b);
    PartTextNat([a, b], 0, m);
    PartTextNat([a, b], 1, d);
  }

  lemma PartTextNat(parts: seq<string>, i: nat, n: nat)
    requires i < |parts| && parts[i] == NatToString(n)
    ensures PartText(parts, i) == NatToString(n)
  {
    NatParse(n);
  }

  lemma TwoParts(a: string, b: string)
    requires AllDigits(a) && AllDigits(b)
    ensures NormalizeExportDate(a + "/" + b) ==
      "undefined" + "-" + PadStart2(PartText([a, b], 0)) + "-" + PadStart2(PartText([a, b], 1))
  {
    TwoPartsSplit(a, b);
    SlashNormal(a + "/" + b, [a, b]);
  }

  lemma TwoPartsSplit(a: string, b: string)
    requires AllDigits(a) && AllDigits(b)
    ensures 'T' !in a + "/" + b && '/' in a + "/" + b
    ensures Split(a + "/" + b, '/') == [a, b]
  {
    DigitsAvoid(a, '/');
    DigitsAvoid(a, 'T');
    DigitsAvoid(b, '/');
    DigitsAvoid(b, 'T');
    assert (a + "/" + b)[|a|] == '/';
    SplitCons(a, '/', b);
  }

  lemma SlashNormal(date: string, parts: seq<string>)
    requires 'T' !in date && '/' in date && Split(date, '/') == parts
    ensures NormalizeExportDate(date) ==
      PartText(parts, 2) + "-" + PadStart2(PartText(parts, 0)) + "-" + PadStart2(PartText(parts, 1))
  {
  }

  /** `M/D/Y` written with three numbers, without leading zeros. */
  function SlashText(m: nat, d: nat, y: nat): string
  {
    Join([NatToString(m), NatToString(d), NatToString(y)], "/")
  }

  /** The `M/D/YYYY` text of a date. */
  function UsText(d: CalDate): string
    requires ValidDate(d) && d.year >= 0
  {
    SlashText(d.month, d.day, d.year)
  }

  lemma IsoTextChars(d: CalDate)
    requires 0 <= d.year <= 9999 && ValidDate(d)
    ensures 'T' !in IsoText(d) && '/' !in IsoText(d) && ',' !in IsoText(d) && '\n' !in IsoText(d)
  {
    var y := FixedDigits(d.year, 4);
    var m := FixedDigits(d.month, 2);
    var dd := FixedDigits(d.day, 2);
    assert IsoText(d) == y + "-" + m + "-" + dd;
    forall c | c in "T/,\n"
      ensures c !in IsoText(d)
    {
      DigitsAvoid(y, c);
      DigitsAvoid(m, c);
      DigitsAvoid(dd, c);
    }
  }

  /** An ISO date is already normalised. */
  lemma ExportDateIso(d: CalDate)
    requires 0 <= d.year <= 9999 && ValidDate(d)
    ensures NormalizeExportDate(IsoText(d)) == IsoText(d)
  {
    IsoTextChars(d);
  }

  /** A timestamp `YYYY-MM-DDT...` is cut back to its date. */
  lemma ExportDateTimestamp(d: CalDate, rest: string)
    requires 0 <= d.year <= 9999 && ValidDate(d)
    ensures NormalizeExportDate(IsoText(d) + "T" + rest) == IsoText(d)
  {
    IsoTextChars(d);
    var s := IsoText(d) + "T" + rest;
    assert s[|IsoText(d)|] == 'T';
    assert s[..|IsoText(d)|] == IsoText(d);
    IndexOfIs(s, 'T', |IsoText(d)|);
  }

  /** An `M/D/Y` text splits back into its three numbers. */
  lemma SlashSplit(m: nat, d: nat, y: nat)
    ensures Split(SlashText(m, d, y), '/') == [NatToString(m), NatToString(d), NatToString(y)]
    ensures 'T' !in SlashText(m, d, y) && '/' in SlashText(m, d, y)
  {
    var parts := [NatToString(m), NatToString(d), NatToString(y)];
    forall p | p in parts
      ensures '/' !in p && 'T' !in p
    {
      var k :| 0 <= k < 3 && parts[k] == p;
      DigitsAvoid(p, '/');
      DigitsAvoid(p, 'T');
    }
    SplitJoin(parts, '/');
    JoinAvoids(parts, "/", 'T');
    SlashAfterMonth(parts);
  }

  /** The first `/` of a three-part join follows the first part. */
  lemma SlashAfterMonth(parts: seq<string>)
    requires |parts| == 3
    ensures Join(parts, "/")[|parts[0]|] == '/'
  {
    assert Join(parts, "/") == parts[0] + "/" + Join(parts[1..], "/");
  }

  /** `parseInt` reads each part of an `M/D/Y` text back as its number. */
  lemma SlashParts(m: nat, d: nat, y: nat)
    ensures var parts := Split(SlashText(m, d, y), '/');
      PartInt(parts, 0) == Some(m) && PartInt(parts, 1) == Some(d) && PartInt(parts, 2) == Some(y)
  {
    SlashSplit(m, d, y);
    NatParse(m);
    NatParse(d);
    NatParse(y);
  }

  lemma NatParse(n: nat)
    ensures ParseInt(NatToString(n)) == Some(n)
  {
    ParseIntDigits(NatToString(n));
    NatToStringValue(n);
  }

  /** Any three numbers `M/D/Y` become `Y-MM-DD`. */
  lemma ExportSlash(m: nat, d: nat, y: nat)
    ensures NormalizeExportDate(SlashText(m, d, y)) ==
      NatToString(y) + "-" + PadStart2(NatToString(m)) + "-" + PadStart2(NatToString(d))
  {
    SlashSplit(m, d, y);
    SlashParts(m, d, y);
  }

  /** The ISO text of a day with a four-digit year, from its numbers. */
  lemma IsoFromNumbers(dt: CalDate)
    requires 1000 <= dt.year <= 9999 && ValidDate(dt)
    ensures NatToString(dt.year) + "-" + PadStart2(NatToString(dt.month)) + "-" + PadStart2(NatToString(dt.day))
      == IsoText(dt)
  {
    PadStart2Digits(dt.month);
    PadStart2Digits(dt.day);
    assert Pow10(3) == 1000 && Pow10(4) == 10000;
    NatToStringWidth(dt.year, 4);
  }

  /** `M/D/YYYY` with a four-digit year becomes the ISO text of the same day. */
  lemma ExportDateUs(d: CalDate)
    requires 1000 <= d.year <= 9999 && ValidDate(d)
    ensures NormalizeExportDate(UsText(d)) == IsoText(d)
  {
    ExportSlash(d.month, d.day, d.year);
    IsoFromNumbers(d);
  }

  // ---------------------------------------------------------------------
  // Grouping by date (the dateMap)

  /** `dateMap`: the dates in insertion order and each date's eleven amounts. */
  datatype DateMap = DateMap(dates: seq<string>, rows: map<string, seq<real>>)

  ghost predicate DateMapOk(m: DateMap)
  {
    (forall i, j :: 0 <= i < j < |m.dates| ==> m.dates[i] != m.dates[j]) &&
    (forall d :: d in m.rows <==> d in m.dates) &&
    (forall d :: d in m.rows ==> |m.rows[d]| == |Columns|)
  }

  /** A fresh row: every amount 0. */
  function ZeroRow(): (r: seq<real>)
    ensures |r| == |Columns| && forall j :: 0 <= j < |r| ==> r[j] == 0.0
  {
    seq(|Columns|, j => 0.0)
  }

  /** The amounts of date `d`, zero when the date has none. */
  function RowOf(m: DateMap, d: string): (r: seq<real>)
    ensures |r| == |Columns|
  {
    if d in m.rows && |m.rows[d]| == |Columns| then m.rows[d] else ZeroRow()
  }

  /** Adds a transaction's amount to its column, if it has one. */
  function Credit(a: seq<real>, t: Transaction): (r: seq<real>)
    requires |a| == |Columns|
    ensures |r| == |Columns|
    ensures forall j :: 0 <= j < |r| ==>
      r[j] == a[j] + (if ColumnFor(t) == Some(j) then t.amount else 0.0)
  {
    match ColumnFor(t)
    case None => a
    case Some(j) => a[j := a[j] + t.amount]
  }

  /** Credits `t` to the row of date `d`, opening the row if it is new. */
  function AddAt(m: DateMap, t: Transaction, d: string): DateMap
  {
    DateMap(if d in m.rows then m.dates else m.dates + [d], m.rows[d := Credit(RowOf(m, d), t)])
  }

  function AddTx(m: DateMap, t: Transaction): DateMap
  {
    AddAt(m, t, NormalizeExportDate(t.date))
  }

  /** The `dateMap` after the `forEach`. */
  function Group(txs: seq<Transaction>): (m: DateMap)
    ensures DateMapOk(m)
  {
    if |txs| == 0 then DateMap([], map[])
    else AddTx(Group(txs[..|txs| - 1]), txs[|txs| - 1])
  }

  function NormalDates(txs: seq<Transaction>): (ds: seq<string>)
    ensures |ds| == |txs| && forall i :: 0 <= i < |txs| ==> ds[i] == NormalizeExportDate(txs[i].date)
  {
    seq(|txs|, i requires 0 <= i < |txs| => NormalizeExportDate(txs[i].date))
  }

  /** The transactions counted in cell (`d`, column `j`). */
  function Matching(txs: seq<Transaction>, d: string, j: nat): (r: seq<Transaction>)
    ensures forall t :: t in r ==> t in txs
  {
    if |txs| == 0 then []
    else
      var t := txs[|txs| - 1];
      Matching(txs[..|txs| - 1], d, j)
        + (if NormalizeExportDate(t.date) == d && ColumnFor(t) == Some(j) then [t] else [])
  }

  /** There is one row per distinct normalised date, in order of first
      appearance. */
  lemma {:induction false} GroupDates(txs: seq<Transaction>)
    ensures Group(txs).dates == Dedup(NormalDates(txs))
  {
    if |txs| > 0 {
      GroupDates(txs[..|txs| - 1]);
      assert NormalDates(txs)[..|txs| - 1] == NormalDates(txs[..|txs| - 1]);
    }
  }

  lemma GroupStep(txs: seq<Transaction>)
    requires |txs| > 0
    ensures Group(txs) == AddTx(Group(txs[..|txs| - 1]), txs[|txs| - 1])
  {
  }

  lemma RowOfAddTx(m: DateMap, t: Transaction, d: string)
    ensures NormalizeExportDate(t.date) == d ==> RowOf(AddTx(m, t), d) == Credit(RowOf(m, d), t)
    ensures NormalizeExportDate(t.date) != d ==> RowOf(AddTx(m, t), d) == RowOf(m, d)
  {
  }

  /** One more transaction adds its amount to at most one cell. */
  lemma CellStep(txs: seq<Transaction>, d: string, j: nat)
    requires |txs| > 0 && j < |Columns|
    ensures var t := txs[|txs| - 1];
      RowOf(Group(txs), d)[j] == RowOf(Group(txs[..|txs| - 1]), d)[j]
        + (if NormalizeExportDate(t.date) == d && ColumnFor(t) == Some(j) then t.amount else 0.0)
  {
    GroupStep(txs);
    CellAdd(Group(txs[..|txs| - 1]), txs[|txs| - 1], d, j);
  }

  lemma CellAdd(m: DateMap, t: Transaction, d: string, j: nat)
    requires j < |Columns|
    ensures RowOf(AddTx(m, t), d)[j] ==
      RowOf(m, d)[j] + (if NormalizeExportDate(t.date) == d && ColumnFor(t) == Some(j) then t.amount else 0.0)
  {
    RowOfAddTx(m, t, d);
  }

  /** Each cell is the sum of the amounts of the transactions with that
      normalised date whose type and category select that column. */
  lemma {:induction false} GroupCells(txs: seq<Transaction>, d: string, j: nat)
    requires j < |Columns|
    ensures RowOf(Group(txs), d)[j] == AmountTotal(Matching(txs, d, j))
  {
    if |txs| > 0 {
      var init := txs[..|txs| - 1];
      var t := txs[|txs| - 1];
      GroupCells(init, d, j);
      CellStep(txs, d, j);
      var ms := Matching(init, d, j);
      if NormalizeExportDate(t.date) == d && ColumnFor(t) == Some(j) {
        AmountTotalSnoc(ms, t);
      } else {
        assert ms + [] == ms;
      }
    }
  }

  // ---------------------------------------------------------------------
  // Rows and their order

  datatype Row = Row(date: string, amounts: seq<real>)

  /** `Array.from(dateMap.values())`. */
  function DayRows(m: DateMap): (rs: seq<Row>)
    requires DateMapOk(m)
    ensures |rs| == |m.dates|
    ensures forall i :: 0 <= i < |rs| ==> rs[i] == Row(m.dates[i], RowOf(m, m.dates[i]))
  {
    seq(|m.dates|, i requires 0 <= i < |m.dates| => Row(m.dates[i], m.rows[m.dates[i]]))
  }

  /** `new Date(date)` for the comparator, as a day count, negated because
      the sort puts the largest key first. A date the ISO reader rejects gets
      key 0 here, where `new Date` gives an invalid date whose NaN
      differences the sort reads as "equal". */
  function DayKey(r: Row): real
  {
    match ParseIso(r.date)
    case Some(d) => -(DayNumber(d) as real)
    case None => 0.0
  }

  /** The rows in output order. */
  function ExportRows(txs: seq<Transaction>): seq<Row>
  {
    Sorting.SortDesc(DayRows(Group(txs)), DayKey)
  }

  /** Every normalised date is an ISO date. */
  predicate IsoExportDates(txs: seq<Transaction>)
  {
    forall t :: t in txs ==> ParseIso(NormalizeExportDate(t.date)).Some?
  }

  /** The exported rows are the grouped rows, one per distinct normalised
      date, rearranged. */
  lemma ExportRowsPermutation(txs: seq<Transaction>)
    ensures multiset(ExportRows(txs)) == multiset(DayRows(Group(txs)))
    ensures |ExportRows(txs)| == |Dedup(NormalDates(txs))|
  {
    GroupDates(txs);
  }

  lemma InExportRows(txs: seq<Transaction>, r: Row)
    ensures r in ExportRows(txs) <==> r in DayRows(Group(txs))
  {
    ExportRowsPermutation(txs);
    assert r in ExportRows(txs) <==> r in multiset(ExportRows(txs));
    assert r in DayRows(Group(txs)) <==> r in multiset(DayRows(Group(txs)));
  }

  /** Every normalised date has a row and every row belongs to a normalised
      date and has an amount in each column. */
  lemma ExportRowsDates(txs: seq<Transaction>)
    ensures forall r :: r in ExportRows(txs) ==> r.date in NormalDates(txs) && |r.amounts| == |Columns|
    ensures forall d :: d in NormalDates(txs) ==> exists r :: r in ExportRows(txs) && r.date == d
  {
    forall r | r in ExportRows(txs)
      ensures r.date in NormalDates(txs) && |r.amounts| == |Columns|
    {
      RowHasDate(txs, r);
    }
    forall d | d in NormalDates(txs)
      ensures exists r :: r in ExportRows(txs) && r.date == d
    {
      DateHasRow(txs, d);
    }
  }

  lemma RowHasDate(txs: seq<Transaction>, r: Row)
    requires r in ExportRows(txs)
    ensures r.date in NormalDates(txs) && |r.amounts| == |Columns|
  {
    InExportRows(txs, r);
    DayRowIn(Group(txs), r);
    GroupDates(txs);
  }

  lemma DayRowIn(m: DateMap, r: Row)
    requires DateMapOk(m) && r in DayRows(m)
    ensures r.date in m.dates && |r.amounts| == |Columns|
  {
    var rows := DayRows(m);
    var i :| 0 <= i < |rows| && rows[i] == r;
  }

  lemma DateHasRow(txs: seq<Transaction>, d: string)
    requires d in NormalDates(txs)
    ensures exists r :: r in ExportRows(txs) && r.date == d
  {
    GroupDates(txs);
    var dates := Group(txs).dates;
    assert d in dates;
    var i :| 0 <= i < |dates| && dates[i] == d;
    var rows := DayRows(Group(txs));
    InExportRows(txs, rows[i]);
    assert rows[i].date == d;
  }

  /** When every normalised date is an ISO date, the rows are in ascending
      date order. */
  lemma ExportRowsAscending(txs: seq<Transaction>)
    requires IsoExportDates(txs)
    ensures forall r :: r in ExportRows(txs) ==> ParseIso(r.date).Some?
    ensures forall i, j :: 0 <= i < j < |ExportRows(txs)| ==>
      DayNumber(ParseIso(ExportRows(txs)[i].date).value) <= DayNumber(ParseIso(ExportRows(txs)[j].date).value)
  {
    var out := ExportRows(txs);
    ExportRowsDates(txs);
    Sorting.SortDescSorted(DayRows(Group(txs)), DayKey);
    forall r | r in out
      ensures ParseIso(r.date).Some?
    {
      var k :| 0 <= k < |txs| && NormalDates(txs)[k] == r.date;
      assert txs[k] in txs;
    }
    forall i, j | 0 <= i < j < |out|
      ensures DayNumber(ParseIso(out[i].date).value) <= DayNumber(ParseIso(out[j].date).value)
    {
      assert out[i] in out && out[j] in out;
      assert DayKey(out[i]) >= DayKey(out[j]);
    }
  }

  // ---------------------------------------------------------------------
  // Text

  /** `row[header] || 0` for the date column: an empty date is written 0. */
  function DateCell(date: string): string
  {
    if date == "" then "0" else date
  }

  /** The fields of a data line: the date, then every amount as `fmt`
      writes numbers. */
  function Cells(r: Row, fmt: real -> string): (cells: seq<string>)
    ensures |cells| == |r.amounts| + 1 && cells[0] == DateCell(r.date)
    ensures forall k :: 0 <= k < |r.amounts| ==> cells[k + 1] == fmt(r.amounts[k])
  {
    [DateCell(r.date)] + seq(|r.amounts|, k requires 0 <= k < |r.amounts| => fmt(r.amounts[k]))
  }

  /** One data line: its fields joined with commas. */
  function RowLine(r: Row, fmt: real -> string): string
  {
    Join(Cells(r, fmt), ",")
  }

  /** The CSV text: the header line, then one line per row, joined with
      newlines (no trailing newline). */
  function Render(rows: seq<Row>, fmt: real -> string): string
  {
    Join(Lines(rows, fmt), "\n")
  }

  /** The header line, then one line per row. */
  function Lines(rows: seq<Row>, fmt: real -> string): (lines: seq<string>)
    ensures |lines| == |rows| + 1 && lines[0] == Join(Headers, ",")
    ensures forall i :: 0 <= i < |rows| ==> lines[i + 1] == RowLine(rows[i], fmt)
  {
    [Join(Headers, ",")] + seq(|rows|, i requires 0 <= i < |rows| => RowLine(rows[i], fmt))
  }

  /** No written number contains a comma or a newline. */
  ghost predicate PlainNumbers(fmt: real -> string)
  {
    forall x: real :: ',' !in fmt(x) && '\n' !in fmt(x)
  }

  /** The header line has no newline and splits back into the headers. */
  lemma HeaderLine()
    ensures '\n' !in Join(Headers, ",") && Split(Join(Headers, ","), ',') == Headers
  {
    HeadersPlain();
    SplitJoin(Headers, ',');
    JoinAvoids(Headers, ",", '\n');
  }

  lemma HeadersPlain()
    ensures forall h :: h in Headers ==> ',' !in h && '\n' !in h
  {
  }

  /** No field of a data line holds a comma or a newline. */
  lemma CellsPlain(r: Row, fmt: real -> string)
    requires PlainNumbers(fmt)
    requires ',' !in r.date && '\n' !in r.date
    ensures forall p :: p in Cells(r, fmt) ==> ',' !in p && '\n' !in p
  {
    var cells := Cells(r, fmt);
    assert ',' !in DateCell(r.date) && '\n' !in DateCell(r.date) by {
      if r.date == "" {
        assert DateCell(r.date) == ['0'];
      }
    }
    forall p | p in cells
      ensures ',' !in p && '\n' !in p
    {
      var k :| 0 <= k < |cells| && cells[k] == p;
      if k > 0 {
        var x := r.amounts[k - 1];
        assert p == fmt(x);
        assert ',' !in fmt(x) && '\n' !in fmt(x);
      }
    }
  }

  /** A data line has no newline and splits back into its fields. */
  lemma RowLineSplit(r: Row, fmt: real -> string)
    requires PlainNumbers(fmt)
    requires ',' !in r.date && '\n' !in r.date
    ensures '\n' !in RowLine(r, fmt) && Split(RowLine(r, fmt), ',') == Cells(r, fmt)
  {
    CellsPlain(r, fmt);
    SplitJoin(Cells(r, fmt), ',');
    JoinAvoids(Cells(r, fmt), ",", '\n');
  }

  /** Splitting the text at newlines gives the header line and one line per
      row; each data line has twelve comma-separated fields: the date and
      the eleven amounts. */
  lemma RenderShape(rows: seq<Row>, fmt: real -> string)
    requires PlainNumbers(fmt)
    requires forall r :: r in rows ==> ',' !in r.date && '\n' !in r.date && |r.amounts| == |Columns|
    ensures |Split(Render(rows, fmt), '\n')| == |rows| + 1
    ensures Split(Render(rows, fmt), '\n')[0] == Join(Headers, ",")
    ensures Split(Join(Headers, ","), ',') == Headers
    ensures forall i :: 0 <= i < |rows| ==>
      var fields := Split(Split(Render(rows, fmt), '\n')[i + 1], ',');
      |fields| == |Headers| && fields[0] == DateCell(rows[i].date) &&
      forall k :: 0 <= k < |Columns| ==> fields[k + 1] == fmt(rows[i].amounts[k])
  {
    LinesSplit(rows, fmt);
    forall i | 0 <= i < |rows|
      ensures Split(RowLine(rows[i], fmt), ',') == Cells(rows[i], fmt)
    {
      assert rows[i] in rows;
      RowLineSplit(rows[i], fmt);
    }
  }

  /** Splitting the text at newlines gives back its lines. */
  lemma LinesSplit(rows: seq<Row>, fmt: real -> string)
    requires PlainNumbers(fmt)
    requires forall r :: r in rows ==> ',' !in r.date && '\n' !in r.date
    ensures Split(Render(rows, fmt), '\n') == Lines(rows, fmt)
    ensures Split(Join(Headers, ","), ',') == Headers
  {
    HeaderLine();
    var lines := Lines(rows, fmt);
    forall p | p in lines
      ensures '\n' !in p
    {
      var k :| 0 <= k < |lines| && lines[k] == p;
      if k > 0 {
        assert rows[k - 1] in rows;
        RowLineSplit(rows[k - 1], fmt);
      }
    }
    SplitJoin(lines, '\n');
  }

  /** Adds one transaction to its date's amounts, as the `forEach` body does. */
  method CreditDay(dayData: seq<real>, tx: Transaction) returns (updated: seq<real>)
    requires |dayData| == |Columns|
    ensures updated == Credit(dayData, tx)
  {
    updated := dayData;
    var csvCategory := CsvCategory(tx.category);
    var amount := tx.amount;
    if tx.kind == "income" {
      if csvCategory in IncomeColumns {
        var j := FirstIndex(Columns, csvCategory);
        updated := updated[j := updated[j] + amount];
      }
    } else if tx.kind == "expense" {
      if csvCategory in ExpenseColumns {
        var j := FirstIndex(Columns, csvCategory);
        updated := updated[j := updated[j] + amount];
      }
    }
  }

  lemma GroupAt(txs: seq<Transaction>, i: nat)
    requires i < |txs|
    ensures Group(txs[..i + 1]) == AddAt(Group(txs[..i]), txs[i], NormalizeExportDate(txs[i].date))
  {
    var pre := txs[..i + 1];
    assert pre[..i] == txs[..i] && pre[i] == txs[i];
    GroupStep(pre);
    assert Group(pre) == AddTx(Group(txs[..i]), txs[i]);
  }

  /** What one turn of the `forEach` leaves in `dateMap`, written as the
      loop writes it: a zero row for a new date, then the credited row. */
  lemma AddTxSteps(m: DateMap, t: Transaction, d: string, rows: map<string, seq<real>>, dates: seq<string>)
    requires d in m.rows ==> |m.rows[d]| == |Columns|
    requires d in m.rows ==> rows == m.rows && dates == m.dates
    requires d !in m.rows ==> rows == m.rows[d := ZeroRow()] && dates == m.dates + [d]
    ensures d in rows && |rows[d]| == |Columns|
    ensures DateMap(dates, rows[d := Credit(rows[d], t)]) == AddAt(m, t, d)
  {
    var row := RowOf(m, d);
    assert rows[d] == row;
    var credited := Credit(row, t);
    assert AddAt(m, t, d) == DateMap(dates, m.rows[d := credited]);
    if d !in m.rows {
      assert rows[d := credited] == m.rows[d := credited];
    }
  }

  /** The `forEach` that fills `dateMap`. */
  method BuildDateMap(txs: seq<Transaction>) returns (dates: seq<string>, dateMap: map<string, seq<real>>)
    ensures DateMap(dates, dateMap) == Group(txs)
  {
    dates := [];
    dateMap := map[];
    for i := 0 to |txs|
      invariant DateMap(dates, dateMap) == Group(txs[..i])
    {
      var tx := txs[i];
      var date := NormalizeExportDate(tx.date);
      ghost var before := DateMap(dates, dateMap);
      if date !in dateMap {
        dates := dates + [date];
        dateMap := dateMap[date := ZeroRow()];
      }
      assert date in before.rows ==> |before.rows[date]| == |Columns|;
      AddTxSteps(before, tx, date, dateMap, dates);
      var dayData := CreditDay(dateMap[date], tx);
      dateMap := dateMap[date := dayData];
      GroupAt(txs, i);
    }
    assert txs[..|txs|] == txs;
  }

  /** `transactionsToCsv`: null for a missing or empty list, otherwise the
      text of the grouped, date-ordered rows. */
  method TransactionsToCsv(transactions: Option<seq<Transaction>>, fmt: real -> string)
    returns (csv: Option<string>)
    ensures transactions.None? || |transactions.value| == 0 <==> csv.None?
    ensures csv.Some? ==> csv.value == Render(ExportRows(transactions.value), fmt)
  {
    if transactions.None? || |transactions.value| == 0 {
      return None;
    }
    var txs := transactions.value;
    var dates, dateMap := BuildDateMap(txs);
    var values := DayRows(DateMap(dates, dateMap));
    var rows := Sorting.SortDesc(values, DayKey);
    assert rows == ExportRows(txs);
    var csvRows := [Join(Headers, ",")] + seq(|rows|, j requires 0 <= j < |rows| => RowLine(rows[j], fmt));
    assert csvRows == Lines(rows, fmt);
    csv := Some(Join(csvRows, "\n"));
  }
}
