/**
 * `parseCsvTextToTransactions` after the CSV text has been parsed: every row
 * with a date becomes one transaction per amount column holding a positive
 * number, income columns first, with the date normalised to `YYYY-MM-DD`
 * the way a local-time `new Date(y, m - 1, d)` reads it.
 */
module CsvImport {
  import opened Common
  import opened Text
  import opened CsvExport

  // ---------------------------------------------------------------------
  // `new Date(y, monthIndex, d)`: out-of-range months and days roll over

  /** Two-digit years name the 1900s. */
  function FullYear(y: int): int
  {
    if 0 <= y <= 99 then 1900 + y else y
  }

  /** The first day of the month after (`y`, `m`). */
  function FirstOfNext(y: int, m: int): CalDate
  {
    if m == 12 then CalDate(y + 1, 1, 1) else CalDate(y, m + 1, 1)
  }

  /** The first day of the month before (`y`, `m`). */
  function FirstOfPrevious(y: int, m: int): CalDate
  {
    if m == 1 then CalDate(y - 1, 12, 1) else CalDate(y, m - 1, 1)
  }

  /** Day `d >= 1` counted from the first of (`y`, `m`), carried into later
      months while it is past the month's end. */
  function RollForward(y: int, m: int, d: int): (r: CalDate)
    requires 1 <= m <= 12 && d >= 1
    ensures ValidDate(r)
    decreases d
  {
    if d <= DaysInMonth(y, m) then CalDate(y, m, d)
    else
      var n := FirstOfNext(y, m);
      RollForward(n.year, n.month, d - DaysInMonth(y, m))
  }

  /** Day `d <= 0` counted from the first of (`y`, `m`), borrowed from
      earlier months until it is a day of the month. */
  function RollBackward(y: int, m: int, d: int): (r: CalDate)
    requires 1 <= m <= 12 && d <= DaysInMonth(y, m)
    ensures ValidDate(r)
    decreases 1 - d
  {
    if d >= 1 then CalDate(y, m, d)
    else
      var p := FirstOfPrevious(y, m);
      RollBackward(p.year, p.month, d + DaysInMonth(p.year, p.month))
  }

  /** The calendar day `new Date(y, monthIndex, d)` stands for; the month
      index is 0-based and, like the day, may lie outside its range. */
  function MakeDate(y: int, monthIndex: int, d: int): (r: CalDate)
    ensures ValidDate(r)
  {
    var fy := FullYear(y);
    var ny := fy + monthIndex / 12;
    var nm := monthIndex % 12 + 1;
    if d >= 1 then RollForward(ny, nm, d) else RollBackward(ny, nm, d)
  }

  /** Stepping back one from `y` lowers `y / k` exactly when `k` divides `y`. */
  lemma DivStep(y: int, k: int)
    requires k == 4 || k == 100 || k == 400
    ensures y / k - (y - 1) / k == if y % k == 0 then 1 else 0
  {
    if k == 4 {
    } else if k == 100 {
    } else {
    }
  }

  /** The days of a month separate its first day from the next month's. */
  lemma MonthLength(y: int, m: int)
    requires 1 <= m <= 12
    ensures DayNumber(FirstOfNext(y, m)) == DayNumber(CalDate(y, m, 1)) + DaysInMonth(y, m)
  {
    if m == 2 {
      YearStep(y);
    }
  }

  /** A March-based year has 366 days when its February is a leap one. */
  lemma YearStep(y: int)
    ensures YearDays(y) == YearDays(y - 1) + (if IsLeapYear(y) then 366 else 365)
  {
    DivStep(y, 4);
    DivStep(y, 100);
    DivStep(y, 400);
    if y % 400 == 0 {
      var q := y / 400;
      assert y == 100 * (4 * q) && y == 4 * (100 * q);
    } else if y % 100 == 0 {
      var q := y / 100;
      assert y == 4 * (25 * q);
    }
  }

  lemma {:induction false} RollForwardDays(y: int, m: int, d: int)
    requires 1 <= m <= 12 && d >= 1
    ensures DayNumber(RollForward(y, m, d)) == DayNumber(CalDate(y, m, 1)) + d - 1
    decreases d
  {
    if d > DaysInMonth(y, m) {
      var n := FirstOfNext(y, m);
      var rest := d - DaysInMonth(y, m);
      assert RollForward(y, m, d) == RollForward(n.year, n.month, rest);
      RollForwardDays(n.year, n.month, rest);
      MonthLength(y, m);
    } else {
      assert RollForward(y, m, d) == CalDate(y, m, d);
    }
  }

  lemma {:induction false} RollBackwardDays(y: int, m: int, d: int)
    requires 1 <= m <= 12 && d <= DaysInMonth(y, m)
    ensures DayNumber(RollBackward(y, m, d)) == DayNumber(CalDate(y, m, 1)) + d - 1
    decreases 1 - d
  {
    if d < 1 {
      var p := FirstOfPrevious(y, m);
      var back := d + DaysInMonth(p.year, p.month);
      assert RollBackward(y, m, d) == RollBackward(p.year, p.month, back);
      RollBackwardDays(p.year, p.month, back);
      MonthLength(p.year, p.month);
      assert FirstOfNext(p.year, p.month) == CalDate(y, m, 1);
    } else {
      assert RollBackward(y, m, d) == CalDate(y, m, d);
    }
  }

  /** The constructed day lies `d - 1` days after the first of the month the
      year and month index name once the index is carried into the year. */
  lemma MakeDateDays(y: int, monthIndex: int, d: int)
    ensures var first := CalDate(FullYear(y) + monthIndex / 12, monthIndex % 12 + 1, 1);
      DayNumber(MakeDate(y, monthIndex, d)) == DayNumber(first) + d - 1
  {
    var ny, nm := FullYear(y) + monthIndex / 12, monthIndex % 12 + 1;
    if d >= 1 {
      RollForwardDays(ny, nm, d);
    } else {
      RollBackwardDays(ny, nm, d);
    }
  }

  /** A real calendar day is kept as it is, in the 1900s for a two-digit
      year. */
  lemma MakeDateValid(y: int, m: int, d: int)
    requires ValidDate(CalDate(FullYear(y), m, d))
    ensures MakeDate(y, m - 1, d) == CalDate(FullYear(y), m, d)
  {
  }

  // ---------------------------------------------------------------------
  // normalizeDateToISO

  /** The text `normalizeDateToISO` writes for an invalid `Date`. */
  const InvalidDateText: string := "NaN-NaN-NaN"

  /** `${yyyy}-${mm}-${dd}` of a calendar day: the year as `String`
      writes it, month and day padded to two places. */
  function DateText(dt: CalDate): string
    requires ValidDate(dt)
  {
    IntToString(dt.year) + "-" + PadStart2(NatToString(dt.month)) + "-" + PadStart2(NatToString(dt.day))
  }

  /** A `Date` holds at most 8.64e15 milliseconds, that is 100000000 days,
      either side of 1970-01-01; further out it is invalid. */
  const MaxEpochDays: int := 100000000

  predicate InDateRange(dt: CalDate)
  {
    -MaxEpochDays <= DayNumber(dt) - DayNumber(CalDate(1970, 1, 1)) <= MaxEpochDays
  }

  /** Every day of a four-digit year is in range. */
  lemma FourDigitInRange(dt: CalDate)
    requires 1000 <= dt.year <= 9999 && ValidDate(dt)
    ensures InDateRange(dt)
  {
    var y := if dt.month <= 2 then dt.year - 1 else dt.year;
    assert 999 <= y <= 9999;
    assert 0 <= YearDays(y) <= 4000000;
  }

  /** What `normalizeDateToISO` makes of the three parsed parts. */
  function FromParts(m: Option<int>, d: Option<int>, y: Option<int>): (r: string)
    ensures m.None? || d.None? || y.None? ==> r == InvalidDateText
    ensures m.Some? && d.Some? && y.Some? && !InDateRange(MakeDate(y.value, m.value - 1, d.value)) ==>
      r == InvalidDateText
  {
    if m.None? || d.None? || y.None? then InvalidDateText
    else
      var dt := MakeDate(y.value, m.value - 1, d.value);
      if InDateRange(dt) then DateText(dt) else InvalidDateText
  }

  /** A year past the range of `Date` gives an invalid date. */
  lemma ImportDateTooLate()
    ensures FromParts(Some(1), Some(1), Some(300000)) == InvalidDateText
  {
    MakeDateValid(300000, 1, 1);
  }

  /** `normalizeDateToISO`: a text with `/` is read as `M/D/Y` through
      `new Date(y, m - 1, d)`; any part that is not a number gives an
      invalid date; a text without `/` is returned as it is. */
  function NormalizeDateToIso(dateStr: string): (r: string)
    ensures '/' !in dateStr ==> r == dateStr
  {
    if '/' in dateStr then
      var parts := Split(dateStr, '/');
      FromParts(PartInt(parts, 0), PartInt(parts, 1), PartInt(parts, 2))
    else dateStr
  }

  /** Any three numbers `M/D/Y` give the day `new Date(Y, M - 1, D)` names. */
  lemma ImportSlash(m: nat, d: nat, y: nat)
    ensures NormalizeDateToIso(SlashText(m, d, y)) == FromParts(Some(m), Some(d), Some(y))
  {
    SlashSplit(m, d, y);
    SlashParts(m, d, y);
  }

  /** The parts of a real day give its text. */
  lemma FromPartsDate(y: int, m: int, d: int)
    requires ValidDate(CalDate(FullYear(y), m, d)) && InDateRange(CalDate(FullYear(y), m, d))
    ensures FromParts(Some(m), Some(d), Some(y)) == DateText(CalDate(FullYear(y), m, d))
  {
    MakeDateValid(y, m, d);
  }

  /** With a four-digit year the written text is the ISO text. */
  lemma DateTextIso(dt: CalDate)
    requires 1000 <= dt.year <= 9999 && ValidDate(dt)
    ensures DateText(dt) == IsoText(dt)
  {
    IsoFromNumbers(dt);
  }

  /** `M/D/YYYY` of a real day with a four-digit year gives its ISO text,
      the text the export writes for it. */
  lemma ImportDateUs(d: CalDate)
    requires 1000 <= d.year <= 9999 && ValidDate(d)
    ensures NormalizeDateToIso(SlashText(d.month, d.day, d.year)) == IsoText(d)
  {
    ImportSlash(d.month, d.day, d.year);
    FourDigitInRange(d);
    FromPartsDate(d.year, d.month, d.day);
    DateTextIso(d);
  }

  /** A year written with one or two digits is read in the 1900s. */
  lemma ImportDateShortYear(m: nat, d: nat, y: nat)
    requires y <= 99 && ValidDate(CalDate(1900 + y, m, d))
    ensures NormalizeDateToIso(SlashText(m, d, y)) == IsoText(CalDate(1900 + y, m, d))
  {
    ImportSlash(m, d, y);
    FourDigitInRange(CalDate(1900 + y, m, d));
    FromPartsDate(y, m, d);
    DateTextIso(CalDate(1900 + y, m, d));
  }

  /** The day after a month's last day rolls into the next month (so
      `2/30/2024` is read as the 1st of March 2024). */
  lemma ImportDateRollover(m: nat, y: nat)
    requires 1 <= m <= 12 && y >= 100 && InDateRange(FirstOfNext(y, m))
    ensures NormalizeDateToIso(SlashText(m, DaysInMonth(y, m) + 1, y)) == DateText(FirstOfNext(y, m))
  {
    var d := DaysInMonth(y, m) + 1;
    ImportSlash(m, d, y);
    MakeDateIn(y, m, d);
    assert FullYear(y) == y;
    RollPastEnd(y, m);
    assert MakeDate(y, m - 1, d) == FirstOfNext(y, m);
    FromPartsNumbers(m, d, y);
  }

  lemma FromPartsNumbers(m: int, d: int, y: int)
    requires InDateRange(MakeDate(y, m - 1, d))
    ensures FromParts(Some(m), Some(d), Some(y)) == DateText(MakeDate(y, m - 1, d))
  {
  }

  /** A month number from 1 to 12 needs no carrying into the year. */
  lemma MakeDateIn(y: int, m: int, d: int)
    requires 1 <= m <= 12 && d >= 1
    ensures MakeDate(y, m - 1, d) == RollForward(FullYear(y), m, d)
  {
    assert (m - 1) / 12 == 0 && (m - 1) % 12 == m - 1;
  }

  lemma RollPastEnd(y: int, m: int)
    requires 1 <= m <= 12
    ensures RollForward(y, m, DaysInMonth(y, m) + 1) == FirstOfNext(y, m)
  {
    var n := FirstOfNext(y, m);
    assert RollForward(y, m, DaysInMonth(y, m) + 1) == RollForward(n.year, n.month, 1);
  }

  /** A part that is not a number makes the whole date invalid. */
  lemma ImportDateNotANumber(m: string, d: string, y: string)
    requires '/' !in m && '/' !in d && '/' !in y
    requires ParseInt(m).None? || ParseInt(d).None? || ParseInt(y).None?
    ensures NormalizeDateToIso(m + "/" + d + "/" + y) == InvalidDateText
  {
    var s := m + "/" + d + "/" + y;
    assert s == Join([m, d, y], "/") by {
      assert [m, d, y][1..] == [d, y];
      assert Join([d, y], "/") == d + "/" + Join([y], "/");
    }
    SplitJoin([m, d, y], '/');
    assert s[|m|] == '/';
  }

  // ---------------------------------------------------------------------
  // Category names

  /** `s.charAt(0).toUpperCase() + s.slice(1)`. */
  function Capitalize(s: string): (r: string)
    ensures |r| == |s|
  {
    if |s| == 0 then "" else ToUpper(s[..1]) + s[1..]
  }

  /** The category an income column's transactions get. */
  function IncomeName(cat: string): string
  {
    if cat == "sales" then "Sales Revenue" else Capitalize(cat)
  }

  /** `mapExpenseCategory`: two fixed names, otherwise every `_`-separated
      word capitalised and the words joined with spaces. */
  function MapExpenseCategory(csvKey: string): string
  {
    if csvKey == "rent" then "Office Rent"
    else if csvKey == "professional_services" then "Professional Services"
    else
      var words := Split(csvKey, '_');
      Join(CapitalizeWords(words), " ")
  }

  /** Each word capitalised, in order. */
  function CapitalizeWords(words: seq<string>): (r: seq<string>)
    ensures |r| == |words|
  {
    if |words| == 0 then [] else [Capitalize(words[0])] + CapitalizeWords(words[1..])
  }

  /** A key without `_` is one word, capitalised. */
  lemma MapExpenseOneWord(csvKey: string)
    requires '_' !in csvKey && csvKey != "rent"
    ensures MapExpenseCategory(csvKey) == Capitalize(csvKey)
  {
    assert csvKey != "professional_services" by {
      assert "professional_services"[12] == '_';
    }
  }

  /** Each name the import gives a column is mapped back to that column by
      the export's category table ("Misc" through its fallback). */
  lemma NamesMapBack()
    ensures forall col :: col in IncomeColumns ==> CsvCategory(IncomeName(col)) == col
    ensures forall col :: col in ExpenseColumns ==> CsvCategory(MapExpenseCategory(col)) == col
  {
    IncomeNamesBack();
    ExpenseNamesBack();
  }

  lemma IncomeNamesBack()
    ensures forall col :: col in IncomeColumns ==> CsvCategory(IncomeName(col)) == col
  {
    forall i | 0 <= i < |IncomeColumns|
      ensures CsvCategory(IncomeName(IncomeColumns[i])) == IncomeColumns[i]
    {
      if i == 0 {
        assert IncomeColumns[0] == "sales";
      } else if i == 1 {
        IncomeColumnBack("consulting", "Consulting");
      } else {
        IncomeColumnBack("investment", "Investment");
      }
    }
  }

  lemma IncomeColumnBack(col: string, name: string)
    requires col != "sales" && Capitalize(col) == name && CsvCategory(name) == col
    ensures CsvCategory(IncomeName(col)) == col
  {
  }

  lemma ExpenseNamesBack()
    ensures forall col :: col in ExpenseColumns ==> ComesBack(col)
  {
    forall i | 0 <= i < |ExpenseColumns|
      ensures ComesBack(ExpenseColumns[i])
    {
      ExpenseColumnBack(i);
    }
  }

  /** The `i`-th expense column comes back from its name. */
  lemma ExpenseColumnBack(i: int)
    requires 0 <= i < |ExpenseColumns|
    ensures ComesBack(ExpenseColumns[i])
  {
    if i == 0 {
      PayrollBack();
    } else if i == 1 {
      RentBack();
    } else if i == 2 {
      UtilitiesBack();
    } else if i == 3 {
      TechnologyBack();
    } else if i == 4 {
      MarketingBack();
    } else if i == 5 {
      TravelBack();
    } else if i == 6 {
      ProfessionalServicesBack();
    } else {
      MiscBack();
    }
  }

  /** An expense column the export's table gives back from its imported name. */
  predicate ComesBack(col: string)
  {
    CsvCategory(MapExpenseCategory(col)) == col
  }

  lemma PayrollBack()
    ensures ComesBack(ExpenseColumns[0])
  {
    OneWordBack("payroll", "Payroll");
  }

  lemma RentBack()
    ensures ComesBack(ExpenseColumns[1])
  {
    assert ExpenseColumns[1] == "rent";
  }

  lemma UtilitiesBack()
    ensures ComesBack(ExpenseColumns[2])
  {
    OneWordBack("utilities", "Utilities");
  }

  lemma TechnologyBack()
    ensures ComesBack(ExpenseColumns[3])
  {
    OneWordBack("technology", "Technology");
  }

  lemma MarketingBack()
    ensures ComesBack(ExpenseColumns[4])
  {
    OneWordBack("marketing", "Marketing");
  }

  lemma TravelBack()
    ensures ComesBack(ExpenseColumns[5])
  {
    OneWordBack("travel", "Travel");
  }

  lemma ProfessionalServicesBack()
    ensures ComesBack(ExpenseColumns[6])
  {
    assert ExpenseColumns[6] == "professional_services";
  }

  lemma MiscBack()
    ensures ComesBack(ExpenseColumns[7])
  {
    assert "Misc" !in CategoryMapping;
    OneWordBack("misc", "Misc");
  }

  /** A one-word column whose capitalised name the export's table knows, or
      that falls back to "misc". */
  lemma OneWordBack(col: string, name: string)
    requires '_' !in col && col != "rent"
    requires Capitalize(col) == name
    requires CsvCategory(name) == col
    ensures CsvCategory(MapExpenseCategory(col)) == col
  {
    MapExpenseOneWord(col);
  }

  // ---------------------------------------------------------------------
  // Parsed rows

  /** A parsed cell: missing or null, a number, a text, or a boolean. */
  datatype Cell = Empty | Num(x: real) | Str(s: string) | Flag(b: bool)

  /** A parsed row: header name to cell. */
  type Record = map<string, Cell>

  /** `row[key]`, missing when the row has no such field. */
  function Get(row: Record, key: string): Cell
  {
    if key in row then row[key] else Empty
  }

  /** The truth value of a cell (`if (!row.date) return`). */
  predicate CellTruthy(c: Cell)
  {
    match c
    case Empty => false
    case Num(x) => x != 0.0
    case Str(s) => s != ""
    case Flag(b) => b
  }

  /** `String(cell)`, with numbers written by `fmt`. */
  function CellText(c: Cell, fmt: real -> string): string
  {
    match c
    case Empty => "null"
    case Num(x) => fmt(x)
    case Str(s) => s
    case Flag(b) => if b then "true" else "false"
  }

  /** `typeof v === "number" ? v : parseFloat(v || 0)`. */
  function CellAmount(c: Cell): JsNum
  {
    match c
    case Num(x) => Fin(x)
    case Str(s) => if s == "" then Fin(0.0) else (var v := ParseFloat(s); if v.Some? then Fin(v.value) else NaN)
    case Flag(b) => if b then NaN else Fin(0.0)
    case Empty => Fin(0.0)
  }

  /** A text cell of digits is read as their value; empty, missing and
      true/false cells never give a positive amount. */
  lemma CellAmountDigits(s: string)
    requires |s| > 0 && AllDigits(s)
    ensures CellAmount(Str(s)) == Fin(DigitsValue(s) as real)
    ensures Positive(Str(s)) <==> DigitsValue(s) > 0
    ensures !Positive(Str("")) && !Positive(Empty) && !Positive(Flag(true)) && !Positive(Flag(false))
  {
    ParseFloatDigits(s);
  }

  /** `amount && amount > 0`. */
  predicate Positive(c: Cell)
  {
    CellAmount(c).Fin? && CellAmount(c).r > 0.0
  }

  /** One push of the import, before its id is given: which kind of column
      it came from, the column, its amount and the row's normalised date. */
  datatype Entry = Entry(income: bool, column: string, amount: real, date: string)

  /** The transaction object pushed for an entry: an income column keeps
      its own name (capitalised, "sales" renamed), an expense column's name
      goes through `mapExpenseCategory`; the time is always midnight. */
  function ToTransaction(e: Entry, id: int): Transaction
  {
    if e.income then
      Transaction(id, "income", IncomeName(e.column), e.amount, e.column + " income", e.date, "00:00")
    else
      var pretty := MapExpenseCategory(e.column);
      Transaction(id, "expense", pretty, e.amount, pretty + " expense", e.date, "00:00")
  }

  /** The transactions of a list of entries, in order, with consecutive ids
      from `firstId`. */
  function Transactions(es: seq<Entry>, firstId: int): (ts: seq<Transaction>)
    ensures |ts| == |es|
  {
    if |es| == 0 then []
    else Transactions(es[..|es| - 1], firstId) + [ToTransaction(es[|es| - 1], firstId + |es| - 1)]
  }

  lemma {:induction false} TransactionsAt(es: seq<Entry>, firstId: int, k: nat)
    requires k < |es|
    ensures Transactions(es, firstId)[k] == ToTransaction(es[k], firstId + k)
    decreases |es|
  {
    if k < |es| - 1 {
      TransactionsAt(es[..|es| - 1], firstId, k);
    }
  }

  lemma {:induction false} TransactionsConcat(xs: seq<Entry>, ys: seq<Entry>, firstId: int)
    ensures Transactions(xs + ys, firstId) == Transactions(xs, firstId) + Transactions(ys, firstId + |xs|)
    decreases |ys|
  {
    if |ys| == 0 {
      assert xs + ys == xs;
    } else {
      var n := |ys| - 1;
      assert (xs + ys)[..|xs + ys| - 1] == xs + ys[..n];
      TransactionsConcat(xs, ys[..n], firstId);
    }
  }

  /** One `forEach` over the columns `cats`: an entry for every column whose
      amount is positive, in column order. */
  function ColumnEntries(row: Record, cats: seq<string>, income: bool, date: string): seq<Entry>
  {
    if |cats| == 0 then []
    else
      var c := cats[|cats| - 1];
      var cell := Get(row, c);
      ColumnEntries(row, cats[..|cats| - 1], income, date) +
        (if Positive(cell) then [Entry(income, c, CellAmount(cell).r, date)] else [])
  }

  /** What the row loop makes of a row's `date` field: a falsy one skips the
      row, any other is normalised. */
  datatype RowDay = Skipped | Dated(iso: string)

  function RowDate(row: Record, fmt: real -> string): RowDay
  {
    var dateCell := Get(row, "date");
    if CellTruthy(dateCell) then Dated(NormalizeDateToIso(CellText(dateCell, fmt))) else Skipped
  }

  /** The two column lists a row is read by: `incomeCategories` and
      `expenseCategories`. */
  datatype Layout = Layout(income: seq<string>, expense: seq<string>)

  const Sheet := Layout(IncomeColumns, ExpenseColumns)

  /** The entries of one row with its date settled: none for a skipped row,
      otherwise the income columns' and then the expense columns'. */
  function RowEntries(row: Record, day: RowDay, lay: Layout): seq<Entry>
  {
    if day.Skipped? then []
    else ColumnEntries(row, lay.income, true, day.iso) + ColumnEntries(row, lay.expense, false, day.iso)
  }

  /** The rows' entries, given each row's date. */
  function Entries(rows: seq<Record>, days: seq<RowDay>, lay: Layout): seq<Entry>
    requires |days| == |rows|
  {
    if |rows| == 0 then []
    else
      var n := |rows| - 1;
      Entries(rows[..n], days[..n], lay) + RowEntries(rows[n], days[n], lay)
  }

  /** Every row's date. */
  function RowDates(rows: seq<Record>, fmt: real -> string): (ds: seq<RowDay>)
    ensures |ds| == |rows|
  {
    if |rows| == 0 then []
    else RowDates(rows[..|rows| - 1], fmt) + [RowDate(rows[|rows| - 1], fmt)]
  }

  lemma {:induction false} RowDatesAt(rows: seq<Record>, fmt: real -> string, i: nat)
    requires i < |rows|
    ensures RowDates(rows, fmt)[i] == RowDate(rows[i], fmt)
    decreases |rows|
  {
    if i < |rows| - 1 {
      RowDatesAt(rows[..|rows| - 1], fmt, i);
    }
  }

  /** Every entry of the import, in push order. */
  function ImportEntries(rows: seq<Record>, fmt: real -> string): seq<Entry>
  {
    Entries(rows, RowDates(rows, fmt), Sheet)
  }

  /** The transactions the import returns, ids handed out consecutively
      from `firstId`. */
  function ImportAll(rows: seq<Record>, fmt: real -> string, firstId: int): seq<Transaction>
  {
    Transactions(ImportEntries(rows, fmt), firstId)
  }

  // ---------------------------------------------------------------------
  // What the import produces

  /** An entry the column loop over `cats` pushes: one of its columns whose
      cell holds a positive amount, with that amount and the row's date. */
  predicate FromColumn(row: Record, cats: seq<string>, income: bool, date: string, e: Entry)
  {
    e.income == income && e.date == date && e.column in cats &&
    Positive(Get(row, e.column)) && e.amount == CellAmount(Get(row, e.column)).r
  }

  /** A column loop pushes exactly the entries of its positive columns. */
  lemma {:induction false} ColumnEntriesExactly(row: Record, cats: seq<string>, income: bool, date: string)
    ensures forall e :: e in ColumnEntries(row, cats, income, date) <==> FromColumn(row, cats, income, date, e)
    decreases |cats|
  {
    if |cats| > 0 {
      var n := |cats| - 1;
      var front := cats[..n];
      ColumnEntriesExactly(row, front, income, date);
      assert cats == front + [cats[n]];
      forall c
        ensures c in cats <==> c in front || c == cats[n]
      {
      }
    }
  }

  /** With distinct columns the entries follow the column order, so no
      column is pushed twice. */
  ghost predicate InColumnOrder(cats: seq<string>, es: seq<Entry>)
  {
    forall k, k' :: 0 <= k < k' < |es| ==>
      es[k].column in cats && es[k'].column in cats &&
      FirstIndex(cats, es[k].column) < FirstIndex(cats, es[k'].column)
  }

  predicate Distinct(cats: seq<string>)
  {
    forall i, j :: 0 <= i < j < |cats| ==> cats[i] != cats[j]
  }

  lemma {:induction false} ColumnEntriesOrder(row: Record, cats: seq<string>, income: bool, date: string)
    requires Distinct(cats)
    ensures InColumnOrder(cats, ColumnEntries(row, cats, income, date))
    decreases |cats|
  {
    if |cats| > 0 {
      var n := |cats| - 1;
      var front := cats[..n];
      var init := ColumnEntries(row, front, income, date);
      var cell := Get(row, cats[n]);
      ColumnEntriesOrder(row, front, income, date);
      ColumnEntriesExactly(row, front, income, date);
      forall k | 0 <= k < |init|
        ensures init[k].column in front
      {
        assert FromColumn(row, front, income, date, init[k]);
      }
      OrderWiden(cats, n, init);
      if Positive(cell) {
        var e := Entry(income, cats[n], CellAmount(cell).r, date);
        assert ColumnEntries(row, cats, income, date) == init + [e];
        FirstIndexUnique(cats, cats[n], n);
        OrderSnoc(cats, n, init, e);
      } else {
        assert ColumnEntries(row, cats, income, date) == init;
      }
    }
  }

  /** Entries in the order of the first `n` columns are in the order of all
      of them, and before the `n`-th. */
  lemma OrderWiden(cats: seq<string>, n: nat, es: seq<Entry>)
    requires n <= |cats| && InColumnOrder(cats[..n], es)
    requires forall k :: 0 <= k < |es| ==> es[k].column in cats[..n]
    ensures InColumnOrder(cats, es)
    ensures forall k :: 0 <= k < |es| ==> es[k].column in cats && FirstIndex(cats, es[k].column) < n
  {
    forall k | 0 <= k < |es|
      ensures es[k].column in cats && FirstIndex(cats, es[k].column) == FirstIndex(cats[..n], es[k].column)
    {
      FirstIndexIn(cats, n, es[k].column);
    }
  }

  /** Appending an entry of the `n`-th column keeps the order. */
  lemma OrderSnoc(cats: seq<string>, n: nat, es: seq<Entry>, e: Entry)
    requires n < |cats| && e.column == cats[n] && FirstIndex(cats, cats[n]) == n
    requires InColumnOrder(cats, es)
    requires forall k :: 0 <= k < |es| ==> es[k].column in cats && FirstIndex(cats, es[k].column) < n
    ensures InColumnOrder(cats, es + [e])
  {
    var all := es + [e];
    forall k, k' | 0 <= k < k' < |all|
      ensures all[k].column in cats && all[k'].column in cats
      ensures FirstIndex(cats, all[k].column) < FirstIndex(cats, all[k'].column)
    {
      assert all[k] == es[k];
      if k' == |es| {
        assert all[k'] == e;
      } else {
        assert all[k'] == es[k'];
      }
    }
  }

  /** The source's column lists: no column twice, and no column in both. */
  lemma SheetColumns()
    ensures Distinct(IncomeColumns) && Distinct(ExpenseColumns) && Distinct(Columns)
  {
    var keys := seq(|Columns|, i requires 0 <= i < |Columns| => Columns[i][0] as int * 128 + Columns[i][1] as int);
    assert keys == [14817, 12783, 13550, 14433, 14693, 15092, 14949, 14049, 14962, 14450, 14057];
    forall i, j | 0 <= i < j < |Columns|
      ensures Columns[i] != Columns[j]
    {
      assert keys[i] != keys[j];
    }
  }

  lemma DistinctSplit(xs: seq<string>, ys: seq<string>)
    requires Distinct(xs + ys)
    ensures Distinct(xs) && Distinct(ys) && forall c :: c in ys ==> c !in xs
  {
    var all := xs + ys;
    forall i, j | 0 <= i < j < |xs| ensures xs[i] != xs[j] {
      assert all[i] == xs[i] && all[j] == xs[j];
    }
    forall i, j | 0 <= i < j < |ys| ensures ys[i] != ys[j] {
      assert all[|xs| + i] == ys[i] && all[|xs| + j] == ys[j];
    }
    forall c | c in ys ensures c !in xs {
      var j :| 0 <= j < |ys| && ys[j] == c;
      forall i | 0 <= i < |xs| ensures xs[i] != c {
        assert all[i] == xs[i] && all[|xs| + j] == c;
      }
    }
  }

  /** Entries in the order of one list followed by entries in the order of a
      second, disjoint list are in the order of the two lists joined. */
  lemma OrderConcat(xs: seq<string>, ys: seq<string>, a: seq<Entry>, b: seq<Entry>)
    requires forall c :: c in ys ==> c !in xs
    requires InColumnOrder(xs, a) && InColumnOrder(ys, b)
    requires forall e :: e in a ==> e.column in xs
    requires forall e :: e in b ==> e.column in ys
    ensures InColumnOrder(xs + ys, a + b)
  {
    var all := xs + ys;
    var es := a + b;
    var m := |xs|;
    assert all[..m] == xs;
    forall e | e in a
      ensures e.column in all && FirstIndex(all, e.column) == FirstIndex(xs, e.column) < m
    {
      FirstIndexIn(all, m, e.column);
    }
    forall e | e in b
      ensures e.column in all && FirstIndex(all, e.column) == m + FirstIndex(ys, e.column)
    {
      FirstIndexAfter(xs, ys, e.column);
    }
    forall k, k' | 0 <= k < k' < |es|
      ensures es[k].column in all && es[k'].column in all &&
        FirstIndex(all, es[k].column) < FirstIndex(all, es[k'].column)
    {
      if k' < |a| {
        assert es[k] == a[k] && es[k'] == a[k'];
      } else if k < |a| {
        assert es[k] == a[k] && es[k'] == b[k' - |a|];
      } else {
        assert es[k] == b[k - |a|] && es[k'] == b[k' - |a|];
      }
    }
  }

  /** A dated row pushes its entries in the order of the combined column
      list, income columns before expense columns, when no column repeats. */
  lemma RowEntriesOrder(row: Record, iso: string, lay: Layout)
    requires Distinct(lay.income + lay.expense)
    ensures InColumnOrder(lay.income + lay.expense, RowEntries(row, Dated(iso), lay))
  {
    DistinctSplit(lay.income, lay.expense);
    ColumnEntriesOrder(row, lay.income, true, iso);
    ColumnEntriesOrder(row, lay.expense, false, iso);
    ColumnEntriesExactly(row, lay.income, true, iso);
    ColumnEntriesExactly(row, lay.expense, false, iso);
    OrderConcat(lay.income, lay.expense,
      ColumnEntries(row, lay.income, true, iso), ColumnEntries(row, lay.expense, false, iso));
  }

  /** With the source's lists, a row's transactions come out in the export's
      column order: the eleven columns from "sales" to "misc". */
  lemma SheetRowOrder(row: Record, iso: string)
    ensures InColumnOrder(Columns, RowEntries(row, Dated(iso), Sheet))
  {
    SheetColumns();
    RowEntriesOrder(row, iso, Sheet);
  }

  /** Every entry of the rows comes from a column of its own kind and has a
      positive amount. */
  lemma {:induction false} EntriesFromColumns(rows: seq<Record>, days: seq<RowDay>, lay: Layout)
    requires |days| == |rows|
    ensures forall e :: e in Entries(rows, days, lay) ==>
      e.amount > 0.0 && e.column in (if e.income then lay.income else lay.expense)
    decreases |rows|
  {
    if |rows| > 0 {
      var n := |rows| - 1;
      EntriesFromColumns(rows[..n], days[..n], lay);
      if days[n].Dated? {
        ColumnEntriesExactly(rows[n], lay.income, true, days[n].iso);
        ColumnEntriesExactly(rows[n], lay.expense, false, days[n].iso);
      }
    }
  }

  /** The export's category table takes the transaction of an entry back to
      the entry's column, with the same amount. */
  lemma ToTransactionBack(e: Entry, id: int)
    requires e.column in (if e.income then IncomeColumns else ExpenseColumns)
    ensures var t := ToTransaction(e, id);
      t.id == id && t.amount == e.amount && t.date == e.date && t.time == "00:00" &&
      t.kind == (if e.income then "income" else "expense") &&
      CsvCategory(t.category) == e.column && ColumnFor(t) == Some(FirstIndex(Columns, e.column))
  {
    NamesMapBack();
  }

  /** The `k`-th transaction imported carries id `firstId + k`, a positive
      amount, the time "00:00", and a category the export writes back into
      the column it was read from. */
  lemma ImportMapsBack(rows: seq<Record>, fmt: real -> string, firstId: int, k: nat)
    requires k < |ImportAll(rows, fmt, firstId)|
    ensures var t := ImportAll(rows, fmt, firstId)[k];
      var e := ImportEntries(rows, fmt)[k];
      t.id == firstId + k && t.amount > 0.0 && t.time == "00:00" && t.date == e.date &&
      CsvCategory(t.category) == e.column && ColumnFor(t).Some? && Columns[ColumnFor(t).value] == e.column
  {
    var es := ImportEntries(rows, fmt);
    EntriesFromColumns(rows, RowDates(rows, fmt), Sheet);
    assert es[k] in es;
    TransactionsAt(es, firstId, k);
    ToTransactionBack(es[k], firstId + k);
  }

  /** The import reads the rows one after the other. */
  lemma ImportSnoc(rows: seq<Record>, row: Record, fmt: real -> string)
    ensures ImportEntries(rows + [row], fmt) == ImportEntries(rows, fmt) + RowEntries(row, RowDate(row, fmt), Sheet)
  {
    assert (rows + [row])[..|rows|] == rows;
    EntriesSnoc(rows, RowDates(rows, fmt), Sheet, row, RowDate(row, fmt));
  }

  /** A row whose date field is falsy adds nothing. */
  lemma ImportSkipsUndated(rows: seq<Record>, row: Record, fmt: real -> string, firstId: int)
    requires !CellTruthy(Get(row, "date"))
    ensures ImportAll(rows + [row], fmt, firstId) == ImportAll(rows, fmt, firstId)
  {
    ImportSnoc(rows, row, fmt);
    assert ImportEntries(rows, fmt) + [] == ImportEntries(rows, fmt);
  }

  // ---------------------------------------------------------------------
  // The import loops

  lemma ColumnEntriesStep(row: Record, cats: seq<string>, income: bool, date: string, j: nat)
    requires j < |cats|
    ensures var cell := Get(row, cats[j]);
      ColumnEntries(row, cats[..j + 1], income, date) ==
        ColumnEntries(row, cats[..j], income, date) +
        (if Positive(cell) then [Entry(income, cats[j], CellAmount(cell).r, date)] else [])
  {
    assert cats[..j + 1][..j] == cats[..j];
  }

  lemma EntriesSnoc(rows: seq<Record>, days: seq<RowDay>, lay: Layout, row: Record, day: RowDay)
    requires |days| == |rows|
    ensures Entries(rows + [row], days + [day], lay) == Entries(rows, days, lay) + RowEntries(row, day, lay)
  {
    assert (rows + [row])[..|rows|] == rows;
    assert (days + [day])[..|rows|] == days;
  }

  lemma PushedStep(before: seq<Transaction>, init: seq<Entry>, row: seq<Entry>, next: seq<Entry>, after: seq<Transaction>, firstId: int)
    requires before == Transactions(init, firstId) && next == init + row
    requires after == before + Transactions(row, firstId + |before|)
    ensures after == Transactions(next, firstId)
  {
    TransactionsConcat(init, row, firstId);
  }

  /** One turn of the row loop extends the transactions by the row's own. */
  lemma RowStep(rows: seq<Record>, days: seq<RowDay>, lay: Layout, firstId: int, idx: nat,
                before: seq<Transaction>, after: seq<Transaction>)
    requires |days| == |rows| && idx < |rows|
    requires before == Transactions(Entries(rows[..idx], days[..idx], lay), firstId)
    requires after == before + Transactions(RowEntries(rows[idx], days[idx], lay), firstId + |before|)
    ensures after == Transactions(Entries(rows[..idx + 1], days[..idx + 1], lay), firstId)
  {
    var init := Entries(rows[..idx], days[..idx], lay);
    var next := Entries(rows[..idx + 1], days[..idx + 1], lay);
    EntriesPrefix(rows, days, lay, idx);
    PushedStep(before, init, RowEntries(rows[idx], days[idx], lay), next, after, firstId);
  }

  lemma EntriesPrefix(rows: seq<Record>, days: seq<RowDay>, lay: Layout, idx: nat)
    requires |days| == |rows| && idx < |rows|
    ensures Entries(rows[..idx + 1], days[..idx + 1], lay) ==
      Entries(rows[..idx], days[..idx], lay) + RowEntries(rows[idx], days[idx], lay)
  {
    assert rows[..idx + 1][..idx] == rows[..idx];
    assert days[..idx + 1][..idx] == days[..idx];
  }

  /** One column loop of a row: a push for every column whose amount is
      positive, each given the next id. */
  method PushColumns(transactions: seq<Transaction>, row: Record, cats: seq<string>, income: bool, isoDate: string, firstId: int)
    returns (out: seq<Transaction>)
    ensures out == transactions + Transactions(ColumnEntries(row, cats, income, isoDate), firstId + |transactions|)
  {
    out := transactions;
    for j := 0 to |cats|
      invariant out == transactions + Transactions(ColumnEntries(row, cats[..j], income, isoDate), firstId + |transactions|)
    {
      var cell := Get(row, cats[j]);
      ghost var init := ColumnEntries(row, cats[..j], income, isoDate);
      ghost var step: seq<Entry> := [];
      ghost var before := out;
      if Positive(cell) {
        var e := Entry(income, cats[j], CellAmount(cell).r, isoDate);
        step := [e];
        out := out + [ToTransaction(e, firstId + |out|)];
        TransactionsOne(e, firstId + |before|);
      } else {
        assert out == before + Transactions(step, firstId + |before|);
      }
      ColumnEntriesStep(row, cats, income, isoDate, j);
      TwoPushes(transactions, before, out, init, step, firstId);
    }
    assert cats[..|cats|] == cats;
  }

  /** Both column loops of a row that has a date. */
  method PushRow(transactions: seq<Transaction>, row: Record, isoDate: string, firstId: int, lay: Layout)
    returns (out: seq<Transaction>)
    ensures out == transactions + Transactions(RowEntries(row, Dated(isoDate), lay), firstId + |transactions|)
  {
    ghost var income := ColumnEntries(row, lay.income, true, isoDate);
    ghost var expense := ColumnEntries(row, lay.expense, false, isoDate);
    var mid := PushColumns(transactions, row, lay.income, true, isoDate, firstId);
    out := PushColumns(mid, row, lay.expense, false, isoDate, firstId);
    TwoPushes(transactions, mid, out, income, expense, firstId);
  }

  lemma TransactionsOne(e: Entry, id: int)
    ensures Transactions([e], id) == [ToTransaction(e, id)]
  {
  }

  /** Two runs of pushes make one run over both lists of entries. */
  lemma TwoPushes(start: seq<Transaction>, mid: seq<Transaction>, end: seq<Transaction>,
                  xs: seq<Entry>, ys: seq<Entry>, firstId: int)
    requires mid == start + Transactions(xs, firstId + |start|)
    requires end == mid + Transactions(ys, firstId + |mid|)
    ensures end == start + Transactions(xs + ys, firstId + |start|)
  {
    TransactionsConcat(xs, ys, firstId + |start|);
  }

  /** One row of the row loop: skipped without a date, otherwise its date
      normalised and both column loops run. */
  method PushDatedRow(transactions: seq<Transaction>, row: Record, fmt: real -> string, firstId: int, lay: Layout)
    returns (out: seq<Transaction>)
    ensures out == transactions + Transactions(RowEntries(row, RowDate(row, fmt), lay), firstId + |transactions|)
  {
    var dateCell := Get(row, "date");
    if !CellTruthy(dateCell) {
      return transactions;
    }
    var isoDate := NormalizeDateToIso(CellText(dateCell, fmt));
    out := PushRow(transactions, row, isoDate, firstId, lay);
  }

  /** The row loop over rows already parsed, reading each row by the
      column lists `lay`; ids are handed out consecutively from `firstId`. */
  method PushRows(rows: seq<Record>, fmt: real -> string, firstId: int, lay: Layout) returns (transactions: seq<Transaction>)
    ensures transactions == Transactions(Entries(rows, RowDates(rows, fmt), lay), firstId)
  {
    ghost var days := RowDates(rows, fmt);
    transactions := [];
    for idx := 0 to |rows|
      invariant transactions == Transactions(Entries(rows[..idx], days[..idx], lay), firstId)
    {
      ghost var before := transactions;
      transactions := PushDatedRow(transactions, rows[idx], fmt, firstId, lay);
      RowDatesAt(rows, fmt, idx);
      RowStep(rows, days, lay, firstId, idx, before, transactions);
    }
    assert rows[..|rows|] == rows;
    assert days[..|rows|] == days;
  }

  /** The row loop of `parseCsvTextToTransactions` with the module's own
      column lists. */
  method ParseCsvRows(rows: seq<Record>, fmt: real -> string, firstId: int) returns (transactions: seq<Transaction>)
    ensures transactions == ImportAll(rows, fmt, firstId)
  {
    transactions := PushRows(rows, fmt, firstId, Sheet);
  }
}
