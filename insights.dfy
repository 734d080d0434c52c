/**
 * `apply_filters_and_search` (app.py): the insight rows of the spreadsheet
 * are put in a data frame, the required columns are back-filled, the report
 * date is parsed, the JSON filters and the free-text search select rows, the
 * rows are ordered by report date and turned back into records.
 *
 * The data frame is modelled as its set of column names and its rows, each row
 * a map from every column to a `Cell`.
 */
module Insights {
  import opened Wrappers
  import opened Text
  import opened Dates
  import opened Seqs
  import opened SheetsService

  const REPORT_DATE := "Data do report/status"

  /** The columns every frame is given, and the columns the search looks in. */
  const REQUIRED_COLS: seq<string> :=
    ["Marca", "Plataforma", "Insight", "Data do report/status", "M\U{ea}s", "Tipo de insight"]

  /** One cell of the frame. */
  datatype Cell =
    | Str(text: string)     // a value read from the sheet
    | NaN                   // a column other rows have and this one lacks
    | Null                  // a required column no row has (back-filled with None)
    | Stamp(day: StampDay)  // a report date that parsed
    | NaT                   // a report date that did not parse

  type FrameRow = map<string, Cell>

  /** A row as the endpoint returns it: missing values become null. */
  type Record = map<string, Option<string>>

  datatype Frame = Frame(columns: set<string>, rows: seq<FrameRow>)

  /** Why the pipeline raises. */
  datatype Failure =
    | FiltersNotAnObject       // `filters.items()` on a truthy non-object
    | FilterNotAList(key: string)  // `isin` with a truthy scalar
    | SearchOnEmptyFrame       // the search mask of an empty frame selects a column

  /* ----- building the frame ----- */

  /** The columns `pd.DataFrame(data)` creates: every key of every row. */
  function InputKeys(data: seq<Row>): set<string> {
    set i, c | 0 <= i < |data| && c in data[i] :: c
  }

  function RequiredSet(cols: seq<string>): set<string> {
    set c | c in cols
  }

  /** The columns after back-filling the required ones. */
  function Columns(data: seq<Row>): set<string> {
    InputKeys(data) + RequiredSet(REQUIRED_COLS)
  }

  /** A cell before the dates are parsed: the row's value, NaN when only other rows have the key, None when back-filled. */
  function RawCell(keys: set<string>, row: Row, c: string): Cell {
    if c in row then Str(row[c]) else if c in keys then NaN else Null
  }

  function RawRow(keys: set<string>, cols: set<string>, row: Row): FrameRow {
    map c | c in cols :: RawCell(keys, row, c)
  }

  /** The frame built from `data` with the columns `cols`. */
  function FrameOf(data: seq<Row>, cols: set<string>): Frame {
    Frame(cols, Apply((row: Row) => RawRow(InputKeys(data), cols, row), data))
  }

  /** `pd.DataFrame(data)`. */
  function FromRecords(data: seq<Row>): Frame {
    FrameOf(data, InputKeys(data))
  }

  /** `df[col] = v`. */
  function WithColumn(f: Frame, col: string, v: Cell): Frame {
    Frame(f.columns + {col}, Apply((row: FrameRow) => row[col := v], f.rows))
  }

  /** Back-filling a column no row has extends the frame by a column of None. */
  lemma BackFillStep(data: seq<Row>, cols: set<string>, col: string)
    requires InputKeys(data) <= cols && col !in cols
    ensures WithColumn(FrameOf(data, cols), col, Null) == FrameOf(data, cols + {col})
  {
    var keys := InputKeys(data);
    var filled := WithColumn(FrameOf(data, cols), col, Null).rows;
    var after := FrameOf(data, cols + {col}).rows;
    forall i | 0 <= i < |data| ensures filled[i] == after[i] {
      assert forall c | c in data[i] :: c in keys;
      BackFillRow(keys, cols, col, data[i]);
    }
  }

  lemma BackFillRow(keys: set<string>, cols: set<string>, col: string, row: Row)
    requires row.Keys <= keys <= cols && col !in cols
    ensures RawRow(keys, cols, row)[col := Null] == RawRow(keys, cols + {col}, row)
  {
  }

  /** `pd.to_datetime(..., format='%d/%m/%Y', errors='coerce')` on one cell. */
  function ParseCell(c: Cell): Cell {
    match c
    case Str(s) => (match ParseReportDate(s) case Some(d) => Stamp(d) case None => NaT)
    case Stamp(_) => c
    case _ => NaT
  }

  function ParseRowDate(row: FrameRow): FrameRow {
    if REPORT_DATE in row then row[REPORT_DATE := ParseCell(row[REPORT_DATE])] else row
  }

  /** The report-date column replaced by its parsed values. */
  function WithParsedDates(f: Frame): Frame {
    f.(rows := Apply(ParseRowDate, f.rows))
  }

  /** The frame every later step starts from. */
  function Normalized(data: seq<Row>): Frame {
    WithParsedDates(FrameOf(data, Columns(data)))
  }

  /** A row of the normalized frame: the column set is `cols` and the report date is parsed. */
  predicate NormalRow(row: FrameRow, cols: set<string>) {
    row.Keys == cols && REPORT_DATE in row && (row[REPORT_DATE].Stamp? || row[REPORT_DATE].NaT?)
  }

  /** The normalized frame has one row per input row, each with every column and a parsed report date. */
  lemma NormalizedShape(data: seq<Row>)
    ensures |Normalized(data).rows| == |data|
    ensures Normalized(data).columns == Columns(data)
    ensures forall row | row in Normalized(data).rows :: NormalRow(row, Columns(data))
  {
    var rows := Normalized(data).rows;
    var raw := FrameOf(data, Columns(data)).rows;
    assert REPORT_DATE in Columns(data);
    forall row | row in rows ensures NormalRow(row, Columns(data)) {
      var i :| 0 <= i < |rows| && rows[i] == row;
      assert row == ParseRowDate(raw[i]);
      NormalRowOf(InputKeys(data), Columns(data), data[i]);
    }
  }

  lemma NormalRowOf(keys: set<string>, cols: set<string>, row: Row)
    requires REPORT_DATE in cols
    ensures NormalRow(ParseRowDate(RawRow(keys, cols, row)), cols)
  {
  }

  /* ----- filters ----- */

  /** The value of one filter entry, as `json.loads` gives it. */
  datatype FilterValue =
    | Items(values: seq<string>)  // a JSON array of strings
    | Scalar(truthy: bool)        // a string, number, boolean or null

  /** The decoded `filters` parameter. */
  datatype FilterJson =
    | Object(entries: seq<(string, FilterValue)>)
    | NotObject(truthy: bool)     // an array, string, number, boolean or null

  predicate Truthy(v: FilterValue) {
    match v
    case Items(vs) => vs != []
    case Scalar(t) => t
  }

  /** The entry narrows the frame: a non-empty list for a column the frame has. */
  predicate Imposes(e: (string, FilterValue), columns: set<string>) {
    e.1.Items? && e.1.values != [] && e.0 in columns
  }

  /** The entry makes `isin` raise: a truthy scalar for a column the frame has. */
  predicate Raises(e: (string, FilterValue), columns: set<string>) {
    e.1.Scalar? && e.1.truthy && e.0 in columns
  }

  /** `df[key].isin(values)` on one row: only a sheet value listed in the filter passes. */
  predicate Accepts(row: FrameRow, e: (string, FilterValue)) {
    e.1.Items? && e.0 in row && row[e.0].Str? && row[e.0].text in e.1.values
  }

  /** The entries the loop over `filters.items()` visits. */
  function Entries(filters: Option<FilterJson>): seq<(string, FilterValue)> {
    if filters.Some? && filters.value.Object? then filters.value.entries else []
  }

  /** The filters make the pipeline raise. */
  predicate FiltersRaise(filters: Option<FilterJson>, columns: set<string>) {
    filters.Some? &&
    match filters.value
    case NotObject(t) => t
    case Object(es) => exists i | 0 <= i < |es| :: Raises(es[i], columns)
  }

  /** The row passes every entry that narrows the frame. */
  predicate PassesFilters(row: FrameRow, entries: seq<(string, FilterValue)>, columns: set<string>) {
    forall i | 0 <= i < |entries| :: Imposes(entries[i], columns) ==> Accepts(row, entries[i])
  }

  /** The boolean mask `df[key].isin(values)` of one entry. */
  function AcceptMask(e: (string, FilterValue)): FrameRow -> bool {
    (row: FrameRow) => Accepts(row, e)
  }

  /** The combined mask of a list of entries. */
  function FilterMask(entries: seq<(string, FilterValue)>, columns: set<string>): FrameRow -> bool {
    (row: FrameRow) => PassesFilters(row, entries, columns)
  }

  lemma PassesFiltersSnoc(row: FrameRow, es: seq<(string, FilterValue)>, e: (string, FilterValue), columns: set<string>)
    ensures PassesFilters(row, es + [e], columns) == (PassesFilters(row, es, columns) && (Imposes(e, columns) ==> Accepts(row, e)))
  {
    assert forall i | 0 <= i < |es| :: (es + [e])[i] == es[i];
    assert (es + [e])[|es|] == e;
  }

  /* ----- search ----- */

  /** `str(cell)` of a cell, as `astype(str)` prints it. */
  function CellText(c: Cell): string {
    match c
    case Str(s) => s
    case NaN => "nan"
    case Null => "None"
    case Stamp(d) => TimestampText(d)
    case NaT => "NaT"
  }

  predicate SearchActive(term: Option<string>) {
    term.Some? && term.value != ""
  }

  /** Some required column of the row, printed and lower-cased, contains the lower-cased term. */
  predicate RowMatches(row: FrameRow, lowered: string) {
    exists k | 0 <= k < |REQUIRED_COLS| ::
      REQUIRED_COLS[k] in row && Contains(Lower(CellText(row[REQUIRED_COLS[k]])), lowered)
  }

  /** The row survives the search step. */
  predicate Matches(row: FrameRow, term: Option<string>) {
    !SearchActive(term) || RowMatches(row, Lower(term.value))
  }

  /** The search mask for an already lower-cased term. */
  function SearchMask(lowered: string): FrameRow -> bool {
    (row: FrameRow) => RowMatches(row, lowered)
  }

  /** The mask of both steps together. */
  function KeepMask(entries: seq<(string, FilterValue)>, columns: set<string>, term: Option<string>): FrameRow -> bool {
    (row: FrameRow) => PassesFilters(row, entries, columns) && Matches(row, term)
  }

  /* ----- what the pipeline selects ----- */

  /** The normalized rows left after the filters. */
  function AfterFilters(data: seq<Row>, filters: Option<FilterJson>): seq<FrameRow> {
    Where(Normalized(data).rows, FilterMask(Entries(filters), Columns(data)))
  }

  /** The normalized rows that pass the filters and the search, in input order. */
  function Kept(data: seq<Row>, filters: Option<FilterJson>, term: Option<string>): (kept: seq<FrameRow>)
    ensures forall row :: row in kept <==>
      row in Normalized(data).rows && PassesFilters(row, Entries(filters), Columns(data)) && Matches(row, term)
    ensures multiset(kept) <= multiset(Normalized(data).rows)
  {
    Where(Normalized(data).rows, KeepMask(Entries(filters), Columns(data), term))
  }

  /** The pipeline raises: the filters are rejected, or a search runs over a frame the filters emptied. */
  predicate PipelineFails(data: seq<Row>, filters: Option<FilterJson>, term: Option<string>) {
    data != [] &&
    (FiltersRaise(filters, Columns(data)) || (SearchActive(term) && AfterFilters(data, filters) == []))
  }

  /* ----- ordering ----- */

  function DateKey(row: FrameRow): Option<Date> {
    if REPORT_DATE in row && row[REPORT_DATE].Stamp? then Some(row[REPORT_DATE].day) else None
  }

  /** Ascending dates with the missing ones last. */
  predicate KeyNotAfter(a: Option<Date>, b: Option<Date>) {
    match a
    case None => b.None?
    case Some(x) => b.None? || NotAfter(x, b.value)
  }

  lemma KeyNotAfterTotal(a: Option<Date>, b: Option<Date>)
    ensures KeyNotAfter(a, b) || KeyNotAfter(b, a)
  {
    if a.Some? && b.Some? { NotAfterTotal(a.value, b.value); }
  }

  lemma KeyNotAfterTransitive(a: Option<Date>, b: Option<Date>, c: Option<Date>)
    requires KeyNotAfter(a, b) && KeyNotAfter(b, c)
    ensures KeyNotAfter(a, c)
  {
    if a.Some? && b.Some? && c.Some? { NotAfterTransitive(a.value, b.value, c.value); }
  }

  predicate OrderedByDate(rows: seq<FrameRow>) {
    forall i, j | 0 <= i < j < |rows| :: KeyNotAfter(DateKey(rows[i]), DateKey(rows[j]))
  }

  lemma OrderedCons(x: FrameRow, s: seq<FrameRow>)
    requires OrderedByDate(s)
    requires forall y | y in s :: KeyNotAfter(DateKey(x), DateKey(y))
    ensures OrderedByDate([x] + s)
  {
    var r := [x] + s;
    forall i, j | 0 <= i < j < |r| ensures KeyNotAfter(DateKey(r[i]), DateKey(r[j])) {
      assert r[j] == s[j - 1];
      if i > 0 { assert r[i] == s[i - 1]; }
    }
  }

  function InsertByDate(row: FrameRow, sorted: seq<FrameRow>): (r: seq<FrameRow>)
    requires OrderedByDate(sorted)
    ensures multiset(r) == multiset(sorted) + multiset{row}
    ensures OrderedByDate(r)
  {
    if sorted == [] then [row]
    else if KeyNotAfter(DateKey(row), DateKey(sorted[0])) then
      InsertByDateFront(row, sorted);
      [row] + sorted
    else
      var rest := InsertByDate(row, sorted[1..]);
      InsertAfterHead(row, sorted, rest);
      assert sorted == [sorted[0]] + sorted[1..];
      assert multiset([sorted[0]] + rest) == multiset{sorted[0]} + multiset(rest);
      [sorted[0]] + rest
  }

  lemma InsertByDateFront(row: FrameRow, sorted: seq<FrameRow>)
    requires OrderedByDate(sorted) && sorted != []
    requires KeyNotAfter(DateKey(row), DateKey(sorted[0]))
    ensures OrderedByDate([row] + sorted)
  {
    forall y | y in sorted ensures KeyNotAfter(DateKey(row), DateKey(y)) {
      var j :| 0 <= j < |sorted| && sorted[j] == y;
      if j > 0 { KeyNotAfterTransitive(DateKey(row), DateKey(sorted[0]), DateKey(y)); }
    }
    OrderedCons(row, sorted);
  }

  lemma InsertAfterHead(row: FrameRow, sorted: seq<FrameRow>, rest: seq<FrameRow>)
    requires OrderedByDate(sorted) && sorted != []
    requires !KeyNotAfter(DateKey(row), DateKey(sorted[0]))
    requires OrderedByDate(rest) && multiset(rest) == multiset(sorted[1..]) + multiset{row}
    ensures OrderedByDate([sorted[0]] + rest)
  {
    KeyNotAfterTotal(DateKey(row), DateKey(sorted[0]));
    forall y | y in rest ensures KeyNotAfter(DateKey(sorted[0]), DateKey(y)) {
      assert y in multiset(rest);
      if y != row {
        assert y in multiset(sorted[1..]);
        var j :| 0 <= j < |sorted[1..]| && sorted[1..][j] == y;
        assert sorted[j + 1] == y;
      }
    }
    OrderedCons(sorted[0], rest);
  }

  /** `df.sort_values(by=[REPORT_DATE], na_position='last')`: a reordering by ascending date, missing dates last. */
  function SortByDate(rows: seq<FrameRow>): (r: seq<FrameRow>)
    ensures multiset(r) == multiset(rows)
    ensures OrderedByDate(r)
  {
    if rows == [] then []
    else
      assert rows == [rows[0]] + rows[1..];
      InsertByDate(rows[0], SortByDate(rows[1..]))
  }

  /* ----- back to records ----- */

  /** A cell as it leaves the endpoint: dates in ISO form, NaN, None and NaT as null. */
  function CellValue(c: Cell): Option<string> {
    match c
    case Str(s) => Some(s)
    case Stamp(d) => Some(IsoText(d))
    case _ => None
  }

  function ToRecord(row: FrameRow): (rec: Record)
    ensures rec.Keys == row.Keys
  {
    map c | c in row :: CellValue(row[c])
  }

  /** The report date a record carries, read back from its ISO text. */
  function OutputDate(rec: Record): Option<Date> {
    if REPORT_DATE in rec && rec[REPORT_DATE].Some? then ParseIso(rec[REPORT_DATE].value) else None
  }

  predicate OrderedOutput(recs: seq<Record>) {
    forall i, j | 0 <= i < j < |recs| :: KeyNotAfter(OutputDate(recs[i]), OutputDate(recs[j]))
  }

  /** The emitted date text reads back as the row's date, and a missing date stays missing. */
  lemma OutputDateOfRow(row: FrameRow, cols: set<string>)
    requires NormalRow(row, cols)
    ensures OutputDate(ToRecord(row)) == DateKey(row)
  {
    if row[REPORT_DATE].Stamp? {
      var d := row[REPORT_DATE].day;
      RepresentableIsEmittable(d);
      ParseIsoText(d);
    }
  }

  lemma OrderedRecords(rows: seq<FrameRow>, cols: set<string>)
    requires forall row | row in rows :: NormalRow(row, cols)
    requires OrderedByDate(rows)
    ensures OrderedOutput(Apply(ToRecord, rows))
  {
    var recs := Apply(ToRecord, rows);
    forall i, j | 0 <= i < j < |recs| ensures KeyNotAfter(OutputDate(recs[i]), OutputDate(recs[j])) {
      OutputDateOfRow(rows[i], cols);
      OutputDateOfRow(rows[j], cols);
    }
  }

  /* ----- the pipeline ----- */

  /** `pd.DataFrame(data)`, the back-fill loop over the required columns and the date parsing. */
  method BuildFrame(data: seq<Row>) returns (frame: Frame)
    ensures frame == Normalized(data)
  {
    frame := FromRecords(data);
    ghost var cols := InputKeys(data);
    assert RequiredSet(REQUIRED_COLS[..0]) == {};
    for k := 0 to |REQUIRED_COLS|
      invariant cols == InputKeys(data) + RequiredSet(REQUIRED_COLS[..k])
      invariant frame == FrameOf(data, cols)
    {
      var col := REQUIRED_COLS[k];
      assert RequiredSet(REQUIRED_COLS[..k + 1]) == RequiredSet(REQUIRED_COLS[..k]) + {col} by {
        assert REQUIRED_COLS[..k + 1] == REQUIRED_COLS[..k] + [col];
      }
      if col !in frame.columns {
        BackFillStep(data, cols, col);
        frame := WithColumn(frame, col, Null);
      } else {
        assert cols + {col} == cols;
      }
      cols := cols + {col};
    }
    assert REQUIRED_COLS[..|REQUIRED_COLS|] == REQUIRED_COLS;
    frame := WithParsedDates(frame);
  }

  /** `if filters: for key, value in filters.items(): ...`: a truthy non-object raises, an object has its entries applied. */
  method FilterRows(rows: seq<FrameRow>, columns: set<string>, filters: Option<FilterJson>)
    returns (result: Result<seq<FrameRow>, Failure>)
    ensures result.Failure? <==> FiltersRaise(filters, columns)
    ensures result.Success? ==> result.value == Where(rows, FilterMask(Entries(filters), columns))
  {
    if filters.Some? && filters.value.NotObject? && filters.value.truthy {
      return Failure(FiltersNotAnObject);
    }
    result := FilterEntries(rows, columns, Entries(filters));
  }

  /** The loop over the entries: each entry that narrows the frame masks it, a truthy scalar raises. */
  method FilterEntries(rows: seq<FrameRow>, columns: set<string>, entries: seq<(string, FilterValue)>)
    returns (result: Result<seq<FrameRow>, Failure>)
    ensures result.Failure? <==> exists j | 0 <= j < |entries| :: Raises(entries[j], columns)
    ensures result.Success? ==> result.value == Where(rows, FilterMask(entries, columns))
  {
    var kept := rows;
    WhereAll(rows, FilterMask([], columns));
    for i := 0 to |entries|
      invariant kept == Where(rows, FilterMask(entries[..i], columns))
      invariant forall j | 0 <= j < i :: !Raises(entries[j], columns)
    {
      var (key, value) := entries[i];
      if Truthy(value) && key in columns {
        if value.Scalar? {
          assert Raises(entries[i], columns);
          return Failure(FilterNotAList(key));
        }
        FilterStep(rows, entries, i, columns);
        kept := Where(kept, AcceptMask(entries[i]));
      } else {
        FilterSkip(rows, entries, i, columns);
      }
    }
    assert entries[..|entries|] == entries;
    return Success(kept);
  }

  /** One more entry conjoins its own mask, when it narrows the frame. */
  lemma FilterMaskSnoc(entries: seq<(string, FilterValue)>, i: nat, columns: set<string>)
    requires i < |entries|
    ensures forall row :: (FilterMask(entries[..i + 1], columns)(row) ==
      (FilterMask(entries[..i], columns)(row) && (Imposes(entries[i], columns) ==> AcceptMask(entries[i])(row))))
  {
    assert entries[..i + 1] == entries[..i] + [entries[i]];
    forall row: FrameRow ensures PassesFilters(row, entries[..i + 1], columns) ==
      (PassesFilters(row, entries[..i], columns) && (Imposes(entries[i], columns) ==> Accepts(row, entries[i])))
    {
      PassesFiltersSnoc(row, entries[..i], entries[i], columns);
    }
  }

  lemma FilterStep(rows: seq<FrameRow>, entries: seq<(string, FilterValue)>, i: nat, columns: set<string>)
    requires i < |entries| && Imposes(entries[i], columns)
    ensures Where(Where(rows, FilterMask(entries[..i], columns)), AcceptMask(entries[i])) == Where(rows, FilterMask(entries[..i + 1], columns))
  {
    FilterMaskSnoc(entries, i, columns);
    WhereWhere(rows, FilterMask(entries[..i], columns), AcceptMask(entries[i]), FilterMask(entries[..i + 1], columns));
  }

  lemma FilterSkip(rows: seq<FrameRow>, entries: seq<(string, FilterValue)>, i: nat, columns: set<string>)
    requires i < |entries| && !Imposes(entries[i], columns)
    ensures Where(rows, FilterMask(entries[..i], columns)) == Where(rows, FilterMask(entries[..i + 1], columns))
  {
    FilterMaskSnoc(entries, i, columns);
    WhereSame(rows, FilterMask(entries[..i], columns), FilterMask(entries[..i + 1], columns));
  }

  /** The search step: the rows some required column of which contains the lower-cased term. */
  method SearchRows(rows: seq<FrameRow>, filtered: seq<FrameRow>, entries: seq<(string, FilterValue)>, columns: set<string>,
                    searchTerm: Option<string>)
    returns (result: Result<seq<FrameRow>, Failure>)
    requires filtered == Where(rows, FilterMask(entries, columns))
    ensures result.Failure? <==> SearchActive(searchTerm) && filtered == []
    ensures result.Success? ==> result.value == Where(rows, KeepMask(entries, columns, searchTerm))
  {
    if searchTerm.Some? && searchTerm.value != "" {
      if filtered == [] {
        return Failure(SearchOnEmptyFrame);
      }
      var st := Lower(searchTerm.value);
      WhereWhere(rows, FilterMask(entries, columns), SearchMask(st), KeepMask(entries, columns, searchTerm));
      return Success(Where(filtered, SearchMask(st)));
    }
    WhereSame(rows, FilterMask(entries, columns), KeepMask(entries, columns, searchTerm));
    return Success(filtered);
  }

  /** Sorting by date and `to_dict('records')`: the records of `kept`, reordered by date. */
  method SortedRecords(kept: seq<FrameRow>, columns: set<string>) returns (records: seq<Record>)
    requires forall row | row in kept :: NormalRow(row, columns)
    ensures multiset(records) == multiset(Apply(ToRecord, kept))
    ensures OrderedOutput(records)
    ensures forall rec | rec in records :: rec.Keys == columns
  {
    var sorted := SortByDate(kept);
    SortedRowsNormal(kept, sorted, columns);
    records := Apply(ToRecord, sorted);
    ApplyPermutation(ToRecord, sorted, kept);
    OrderedRecords(sorted, columns);
    RecordKeys(sorted, columns);
  }

  lemma SortedRowsNormal(kept: seq<FrameRow>, sorted: seq<FrameRow>, columns: set<string>)
    requires forall row | row in kept :: NormalRow(row, columns)
    requires multiset(sorted) == multiset(kept)
    ensures forall row | row in sorted :: NormalRow(row, columns)
  {
    forall row | row in sorted ensures NormalRow(row, columns) {
      assert row in multiset(sorted);
    }
  }

  lemma RecordKeys(rows: seq<FrameRow>, columns: set<string>)
    requires forall row | row in rows :: NormalRow(row, columns)
    ensures forall rec | rec in Apply(ToRecord, rows) :: rec.Keys == columns
  {
    var records := Apply(ToRecord, rows);
    forall rec | rec in records ensures rec.Keys == columns {
      var i :| 0 <= i < |records| && records[i] == rec;
      assert rows[i] in rows;
    }
  }

  /**
   * `apply_filters_and_search(data, filters, search_term)`: the records of the
   * kept rows, ordered by report date, every record carrying every column;
   * or the exception the pipeline raises.
   */
  method ApplyFiltersAndSearch(data: seq<Row>, filters: Option<FilterJson>, searchTerm: Option<string>)
    returns (result: Result<seq<Record>, Failure>)
    ensures data == [] ==> result == Success([])
    ensures result.Failure? <==> PipelineFails(data, filters, searchTerm)
    ensures result.Success? ==> multiset(result.value) == multiset(Apply(ToRecord, Kept(data, filters, searchTerm)))
    ensures result.Success? ==> OrderedOutput(result.value)
    ensures result.Success? ==> forall rec | rec in result.value :: rec.Keys == Columns(data)
  {
    if data == [] {
      return Success([]);
    }
    var columns := Columns(data);
    var frame := BuildFrame(data);
    NormalizedShape(data);
    var filtered := FilterRows(frame.rows, columns, filters);
    if filtered.Failure? {
      return Failure(filtered.error);
    }
    var searched := SearchRows(frame.rows, filtered.value, Entries(filters), columns, searchTerm);
    if searched.Failure? {
      return Failure(searched.error);
    }
    var records := SortedRecords(searched.value, columns);
    return Success(records);
  }

  /* ----- properties of the selection ----- */

  /** The cells of one output record: sheet values pass through, missing cells are null, the report date is re-emitted in ISO form or null. */
  lemma RecordOfInputRow(data: seq<Row>, i: int)
    requires 0 <= i < |data|
    ensures ToRecord(Normalized(data).rows[i]).Keys == Columns(data)
    ensures forall c | c in data[i] && c != REPORT_DATE :: ToRecord(Normalized(data).rows[i])[c] == Some(data[i][c])
    ensures forall c | c in Columns(data) && c !in data[i] && c != REPORT_DATE :: ToRecord(Normalized(data).rows[i])[c] == None
    ensures ToRecord(Normalized(data).rows[i])[REPORT_DATE] ==
      if REPORT_DATE in data[i] && ParseReportDate(data[i][REPORT_DATE]).Some?
      then Some(IsoText(ParseReportDate(data[i][REPORT_DATE]).value))
      else None
  {
    NormalizedRow(data, i);
    InputKeysCover(data, i);
  }

  /** Row `i` of the normalized frame is input row `i`, back-filled and with its date parsed. */
  lemma NormalizedRow(data: seq<Row>, i: int)
    requires 0 <= i < |data|
    ensures Normalized(data).rows[i] == ParseRowDate(RawRow(InputKeys(data), Columns(data), data[i]))
  {
    assert FrameOf(data, Columns(data)).rows[i] == RawRow(InputKeys(data), Columns(data), data[i]);
  }

  /** Every key of an input row is a column of the frame. */
  lemma InputKeysCover(data: seq<Row>, i: int)
    requires 0 <= i < |data|
    ensures data[i].Keys <= InputKeys(data) <= Columns(data)
    ensures REPORT_DATE in Columns(data)
  {
    forall c | c in data[i] ensures c in InputKeys(data) { }
    assert REQUIRED_COLS[3] == REPORT_DATE;
  }

  /** The pipeline only removes rows: its records are a sub-multiset of the records of all input rows. */
  lemma KeptSubMultiset(data: seq<Row>, filters: Option<FilterJson>, term: Option<string>)
    ensures multiset(Apply(ToRecord, Kept(data, filters, term))) <= multiset(Apply(ToRecord, Normalized(data).rows))
  {
    ApplySubMultiset(ToRecord, Kept(data, filters, term), Normalized(data).rows);
  }

  /** Whether a row passes depends on which entries the filter object has, not on their order. */
  lemma PassesFiltersBySet(row: FrameRow, es1: seq<(string, FilterValue)>, es2: seq<(string, FilterValue)>, columns: set<string>)
    requires forall e :: e in es1 <==> e in es2
    ensures PassesFilters(row, es1, columns) == PassesFilters(row, es2, columns)
  {
    if PassesFilters(row, es1, columns) {
      forall j | 0 <= j < |es2| && Imposes(es2[j], columns) ensures Accepts(row, es2[j]) {
        assert es2[j] in es1;
      }
    }
    if PassesFilters(row, es2, columns) {
      forall j | 0 <= j < |es1| && Imposes(es1[j], columns) ensures Accepts(row, es1[j]) {
        assert es1[j] in es2;
      }
    }
  }

  lemma InertMasks(es: seq<(string, FilterValue)>, cols: set<string>, term: Option<string>)
    requires forall i | 0 <= i < |es| :: !Truthy(es[i].1) || es[i].0 !in cols
    ensures forall row :: FilterMask(es, cols)(row) == FilterMask([], cols)(row)
    ensures forall row :: KeepMask(es, cols, term)(row) == KeepMask([], cols, term)(row)
  {
    forall row ensures PassesFilters(row, es, cols) && PassesFilters(row, [], cols) { }
  }

  /** Reordering the entries of the filter object changes neither the selected rows nor whether the pipeline raises. */
  lemma FilterOrderIrrelevant(data: seq<Row>, es1: seq<(string, FilterValue)>, es2: seq<(string, FilterValue)>, term: Option<string>)
    requires forall e :: e in es1 <==> e in es2
    ensures Kept(data, Some(Object(es1)), term) == Kept(data, Some(Object(es2)), term)
    ensures PipelineFails(data, Some(Object(es1)), term) == PipelineFails(data, Some(Object(es2)), term)
  {
    var cols, rows := Columns(data), Normalized(data).rows;
    MasksBySet(es1, es2, cols, term);
    WhereSame(rows, KeepMask(es1, cols, term), KeepMask(es2, cols, term));
    WhereSame(rows, FilterMask(es1, cols), FilterMask(es2, cols));
    RaisesBySet(es1, es2, cols);
  }

  lemma MasksBySet(es1: seq<(string, FilterValue)>, es2: seq<(string, FilterValue)>, cols: set<string>, term: Option<string>)
    requires forall e :: e in es1 <==> e in es2
    ensures forall row :: FilterMask(es1, cols)(row) == FilterMask(es2, cols)(row)
    ensures forall row :: KeepMask(es1, cols, term)(row) == KeepMask(es2, cols, term)(row)
  {
    forall row ensures PassesFilters(row, es1, cols) == PassesFilters(row, es2, cols) {
      PassesFiltersBySet(row, es1, es2, cols);
    }
  }

  lemma RaisesBySet(es1: seq<(string, FilterValue)>, es2: seq<(string, FilterValue)>, cols: set<string>)
    requires forall e :: e in es1 <==> e in es2
    ensures FiltersRaise(Some(Object(es1)), cols) == FiltersRaise(Some(Object(es2)), cols)
  {
    if FiltersRaise(Some(Object(es1)), cols) {
      var i :| 0 <= i < |es1| && Raises(es1[i], cols);
      assert es1[i] in es2;
      var j :| 0 <= j < |es2| && es2[j] == es1[i];
    }
    if FiltersRaise(Some(Object(es2)), cols) {
      var i :| 0 <= i < |es2| && Raises(es2[i], cols);
      assert es2[i] in es1;
      var j :| 0 <= j < |es1| && es1[j] == es2[i];
    }
  }

  /** Entries that are empty or name a column the frame lacks are ignored: the result is that of no filters. */
  lemma InertFiltersIgnored(data: seq<Row>, es: seq<(string, FilterValue)>, term: Option<string>)
    requires forall i | 0 <= i < |es| :: !Truthy(es[i].1) || es[i].0 !in Columns(data)
    ensures Kept(data, Some(Object(es)), term) == Kept(data, None, term)
    ensures PipelineFails(data, Some(Object(es)), term) == PipelineFails(data, None, term)
  {
    var cols, rows := Columns(data), Normalized(data).rows;
    InertMasks(es, cols, term);
    WhereSame(rows, KeepMask(es, cols, term), KeepMask([], cols, term));
    WhereSame(rows, FilterMask(es, cols), FilterMask([], cols));
  }

  /** The search ignores the case of the term. */
  lemma SearchIgnoresCase(data: seq<Row>, filters: Option<FilterJson>, t1: string, t2: string)
    requires Lower(t1) == Lower(t2)
    ensures Kept(data, filters, Some(t1)) == Kept(data, filters, Some(t2))
    ensures PipelineFails(data, filters, Some(t1)) == PipelineFails(data, filters, Some(t2))
  {
    var es, cols := Entries(filters), Columns(data);
    assert (t1 == []) == (t2 == []);
    WhereSame(Normalized(data).rows, KeepMask(es, cols, Some(t1)), KeepMask(es, cols, Some(t2)));
  }

  /** No search term and an empty one keep every row the filters keep. */
  lemma BlankSearchKeepsFiltered(data: seq<Row>, filters: Option<FilterJson>, term: Option<string>)
    requires !SearchActive(term)
    ensures Kept(data, filters, term) == AfterFilters(data, filters)
    ensures PipelineFails(data, filters, term) <==> data != [] && FiltersRaise(filters, Columns(data))
  {
    var es, cols := Entries(filters), Columns(data);
    WhereSame(Normalized(data).rows, KeepMask(es, cols, term), FilterMask(es, cols));
  }

  /**
   * A required column that no input row has prints as "None" in every row, so
   * the search term "none" selects every row.
   */
  lemma AbsentColumnMatchesNone(data: seq<Row>, c: string, i: int)
    requires c in REQUIRED_COLS && c != REPORT_DATE && c !in InputKeys(data)
    requires 0 <= i < |data|
    ensures Matches(Normalized(data).rows[i], Some("NONE"))
  {
    NormalizedRow(data, i);
    InputKeysCover(data, i);
    var row := Normalized(data).rows[i];
    assert c in Columns(data);
    assert row[c] == Null;
    NoneLowered();
    assert OccursAt(Lower(CellText(row[c])), "none", 0);
    var k :| 0 <= k < |REQUIRED_COLS| && REQUIRED_COLS[k] == c;
  }

  /** A row whose sheet value in a searched column contains the term survives the search. */
  lemma SheetValueMatches(data: seq<Row>, i: int, c: string, term: string)
    requires 0 <= i < |data|
    requires c in REQUIRED_COLS && c != REPORT_DATE && c in data[i]
    requires term != "" && Contains(Lower(data[i][c]), Lower(term))
    ensures Matches(Normalized(data).rows[i], Some(term))
  {
    NormalizedRow(data, i);
    var row := Normalized(data).rows[i];
    assert c in Columns(data);
    assert row[c] == Str(data[i][c]);
    var k :| 0 <= k < |REQUIRED_COLS| && REQUIRED_COLS[k] == c;
  }

  /** The month column `Mês` is searched: a term found only there keeps the row. */
  lemma ExampleMonthSearched()
    ensures Matches(Normalized([map["M\U{ea}s" := "mar"]]).rows[0], Some("mar"))
  {
    LowerLetters("mar", "mar");
    assert OccursAt("mar", "mar", 0);
    SheetValueMatches([map["M\U{ea}s" := "mar"]], 0, "M\U{ea}s", "mar");
  }

  lemma NoneLowered()
    ensures Lower("None") == "none" && Lower("NONE") == "none"
  {
    LowerLetters("None", "none");
    LowerLetters("NONE", "none");
  }

  /** A report date that did not parse prints as "NaT", so the search term "nat" selects its row. */
  lemma UnparsedDateMatchesNat(data: seq<Row>, i: int)
    requires 0 <= i < |data|
    requires REPORT_DATE !in data[i] || ParseReportDate(data[i][REPORT_DATE]).None?
    ensures Matches(Normalized(data).rows[i], Some("nat"))
  {
    NormalizedRow(data, i);
    InputKeysCover(data, i);
    var row := Normalized(data).rows[i];
    assert row[REPORT_DATE] == NaT;
    NatLowered();
    assert OccursAt(Lower(CellText(NaT)), "nat", 0);
    assert REQUIRED_COLS[3] == REPORT_DATE;
  }

  lemma NatLowered()
    ensures Lower("NaT") == "nat" && Lower("nat") == "nat"
  {
    LowerLetters("NaT", "nat");
    LowerLetters("nat", "nat");
  }

  /** A row whose sheet date is "15/03/2024" leaves with "2024-03-15T00:00:00Z". */
  lemma ExampleRecordDate(data: seq<Row>, i: int)
    requires 0 <= i < |data| && REPORT_DATE in data[i] && data[i][REPORT_DATE] == "15/03/2024"
    ensures ToRecord(Normalized(data).rows[i])[REPORT_DATE] == Some("2024-03-15T00:00:00Z")
  {
    RecordOfInputRow(data, i);
    ExampleReportDate();
    ExampleEmittedDate();
  }

  /** A row whose sheet date is "31/02/2024", a day February never has, leaves with a null date. */
  lemma ExampleRecordImpossibleDate(data: seq<Row>, i: int)
    requires 0 <= i < |data| && REPORT_DATE in data[i] && data[i][REPORT_DATE] == "31/02/2024"
    ensures ToRecord(Normalized(data).rows[i])[REPORT_DATE] == None
  {
    RecordOfInputRow(data, i);
    ExampleImpossibleDay();
  }

  /** A brand written "Budweiser" in the sheet is found by "BUDWEISER" and by "weis". */
  lemma ExampleSearchIgnoresCase(row: FrameRow)
    requires "Marca" in row && row["Marca"] == Str("Budweiser")
    ensures Matches(row, Some("BUDWEISER")) && Matches(row, Some("weis"))
  {
    LowerLetters("Budweiser", "budweiser");
    LowerLetters("BUDWEISER", "budweiser");
    LowerLetters("weis", "weis");
    assert OccursAt("budweiser", "budweiser", 0);
    assert OccursAt("budweiser", "weis", 3);
    assert REQUIRED_COLS[0] == "Marca";
  }
}
