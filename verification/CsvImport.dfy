/**
 The holdings import over the parsed lines: columns are recognised by their header, every later line
 becomes a holding or an error.
 */
module CsvImport {
  import opened Common
  import opened CsvText

  datatype Field =
    | Address
    | ZipCode
    | AssetClass
    | CostBasis
    | CurrentValueEstimate
    | LoanBalance
    | InterestRate
    | MonthlyRent
    | MonthlyPiti

  datatype Format = Stessa | ReiHub | Generic

  /** A number that was given, and could be read or not. */
  type Amount = Option<Option<real>>

  datatype ImportedFinancials = ImportedFinancials(
    costBasis: Amount,
    currentValueEstimate: Amount,
    valueEstimateSource: Option<Format>,
    loanBalance: Amount,
    interestRate: Amount,
    monthlyRent: Amount,
    monthlyPiti: Amount)

  datatype Holding = Holding(
    address: string,
    zipCode: Option<string>,
    assetClass: string,
    financials: Option<ImportedFinancials>)

  datatype ImportError = EmptyFile | NoAddressColumn | RowWithoutAddress(line: nat)

  datatype ImportResult = ImportResult(
    format: Format,
    holdings: seq<Holding>,
    errors: seq<ImportError>,
    rowCount: nat)

  // ---------------------------------------------------------------------------
  // Headers
  // ---------------------------------------------------------------------------

  /** Runs of underscores and white space become one space. */
  function Collapse(s: string, inRun: bool): string {
    if s == "" then ""
    else if s[0] == '_' || IsSpace(s[0]) then (if inRun then "" else " ") + Collapse(s[1..], true)
    else [s[0]] + Collapse(s[1..], false)
  }

  function Normalize(header: string): string {
    Trim(Collapse(Lower(header), false))
  }

  function Alias(name: string): Option<Field> {
    if name in ["address", "property", "property name", "property address"] then Some(Address)
    else if name in ["zip", "zip code", "zipcode", "postal code"] then Some(ZipCode)
    else if name in ["asset class", "property type", "type"] then Some(AssetClass)
    else if name in ["purchase price", "cost basis", "acquisition price"] then Some(CostBasis)
    else if name in ["market value", "estimated value", "current value"] then Some(CurrentValueEstimate)
    else if name in ["mortgage balance", "loan balance", "outstanding loan"] then Some(LoanBalance)
    else if name in ["interest rate", "rate"] then Some(InterestRate)
    else if name in ["monthly rent", "rent", "gross rent"] then Some(MonthlyRent)
    else if name in ["monthly piti", "piti"] then Some(MonthlyPiti)
    else None
  }

  function AssetClassOf(raw: string): string {
    var name := Normalize(raw);
    if name in ["single family", "single-family", "sfr"] then "sfr"
    else if name == "condo" then "condo"
    else if name in ["townhouse", "townhome"] then "townhouse"
    else if name in ["duplex", "triplex", "fourplex", "2-4 unit"] then "mf_2_4"
    else if name in ["multifamily", "multi-family"] then "mf_5_plus"
    else "sfr"
  }

  predicate HasHeader(headers: seq<string>, name: string) {
    exists i :: 0 <= i < |headers| && Normalize(headers[i]) == name
  }

  function DetectFormat(headers: seq<string>): Format {
    if HasHeader(headers, "market value") || HasHeader(headers, "mortgage balance") then Stessa
    else if HasHeader(headers, "loan balance") || HasHeader(headers, "estimated value") then ReiHub
    else Generic
  }

  type ColumnMap = seq<Option<Field>>

  function ColumnsOf(headers: seq<string>): ColumnMap {
    seq(|headers|, i requires 0 <= i < |headers| => Alias(Normalize(headers[i])))
  }

  // ---------------------------------------------------------------------------
  // One row
  // ---------------------------------------------------------------------------

  /** The cell of column k counts for field f. */
  predicate Fills(columns: ColumnMap, cells: seq<string>, k: int, f: Field) {
    0 <= k < |columns| && columns[k] == Some(f) && k < |cells| && cells[k] != ""
  }

  /** The flat row after the first n columns. */
  function FlatOf(columns: ColumnMap, cells: seq<string>, n: nat): map<Field, string>
    requires n <= |columns|
  {
    if n == 0 then map[]
    else
      var flat := FlatOf(columns, cells, n - 1);
      if columns[n - 1].Some? && Fills(columns, cells, n - 1, columns[n - 1].value)
      then flat[columns[n - 1].value := cells[n - 1]]
      else flat
  }

  predicate IsMoneyNoise(c: char) {
    c == '$' || c == ',' || c == '%' || IsSpace(c)
  }

  function Cleaned(raw: string): string {
    if raw == "" then ""
    else (if IsMoneyNoise(raw[0]) then "" else [raw[0]]) + Cleaned(raw[1..])
  }

  /** parseMoney; number stands for JavaScript's Number, None when its result is not finite. */
  function ParseMoney(raw: string, number: string -> Option<real>): Option<real> {
    if Cleaned(raw) == "" then None else number(Cleaned(raw))
  }

  function ParseRate(raw: string, number: string -> Option<real>): Option<real> {
    match ParseMoney(raw, number)
    case None => None
    case Some(value) => Some(if value > 1.0 then value / 100.0 else value)
  }

  function MoneyAt(flat: map<Field, string>, f: Field, number: string -> Option<real>): Amount {
    if f in flat then Some(ParseMoney(flat[f], number)) else None
  }

  function FinancialsOf(flat: map<Field, string>, format: Format, number: string -> Option<real>): ImportedFinancials {
    ImportedFinancials(
      MoneyAt(flat, CostBasis, number),
      MoneyAt(flat, CurrentValueEstimate, number),
      if CurrentValueEstimate in flat then Some(format) else None,
      MoneyAt(flat, LoanBalance, number),
      if InterestRate in flat then Some(ParseRate(flat[InterestRate], number)) else None,
      MoneyAt(flat, MonthlyRent, number),
      MoneyAt(flat, MonthlyPiti, number))
  }

  predicate Given(a: Amount) {
    a.Some? && a.value.Some?
  }

  predicate HasFinancials(f: ImportedFinancials) {
    || Given(f.costBasis) || Given(f.currentValueEstimate) || Given(f.loanBalance)
    || Given(f.interestRate) || Given(f.monthlyRent) || Given(f.monthlyPiti)
  }

  /** The holding of a flat row that has an address. */
  function HoldingOf(flat: map<Field, string>, format: Format, number: string -> Option<real>): Holding
    requires Address in flat
  {
    var financials := FinancialsOf(flat, format, number);
    Holding(
      flat[Address],
      if ZipCode in flat then Some(flat[ZipCode]) else None,
      if AssetClass in flat then AssetClassOf(flat[AssetClass]) else "sfr",
      if HasFinancials(financials) then Some(financials) else None)
  }

  /** What row number r (the header is row 0) contributes. */
  function RowOutcome(columns: ColumnMap, format: Format, number: string -> Option<real>, cells: seq<string>, r: nat)
    : Result<Holding, ImportError>
  {
    var flat := FlatOf(columns, cells, |columns|);
    if Address in flat then Ok(HoldingOf(flat, format, number)) else Err(RowWithoutAddress(r + 1))
  }

  function HoldingsOf(columns: ColumnMap, format: Format, number: string -> Option<real>, rows: seq<seq<string>>,
                      n: nat)
    : seq<Holding>
    requires n < |rows|
  {
    if n == 0 then []
    else
      HoldingsOf(columns, format, number, rows, n - 1)
      + match RowOutcome(columns, format, number, rows[n], n) { case Ok(h) => [h] case Err(_) => [] }
  }

  function ErrorsOf(columns: ColumnMap, format: Format, number: string -> Option<real>, rows: seq<seq<string>>, n: nat)
    : seq<ImportError>
    requires n < |rows|
  {
    if n == 0 then []
    else
      ErrorsOf(columns, format, number, rows, n - 1)
      + match RowOutcome(columns, format, number, rows[n], n) { case Ok(_) => [] case Err(e) => [e] }
  }

  /** The import of parsed rows, header first. */
  function FromRows(rows: seq<seq<string>>, number: string -> Option<real>): ImportResult {
    if rows == [] then ImportResult(Generic, [], [EmptyFile], 0)
    else
      var format, columns, last := DetectFormat(rows[0]), ColumnsOf(rows[0]), |rows| - 1;
      if Some(Address) !in columns then ImportResult(format, [], [NoAddressColumn], last)
      else ImportResult(format, HoldingsOf(columns, format, number, rows, last),
                        ErrorsOf(columns, format, number, rows, last), last)
  }

  function RowsOf(text: string): seq<seq<string>> {
    ParseEach(Lines(text))
  }

  method FillRow(columns: ColumnMap, cells: seq<string>) returns (flat: map<Field, string>)
    ensures flat == FlatOf(columns, cells, |columns|)
  {
    flat := map[];
    for col := 0 to |columns|
      invariant flat == FlatOf(columns, cells, col)
    {
      var field := columns[col];
      if field.Some? && col < |cells| && cells[col] != "" {
        flat := flat[field.value := cells[col]];
      }
    }
  }

  /** The row loop of parseHoldingsCsv; line 0 is the header. */
  method ReadRows(columns: ColumnMap, format: Format, lines: seq<string>, number: string -> Option<real>)
    returns (holdings: seq<Holding>, errors: seq<ImportError>)
    requires lines != []
    ensures holdings == HoldingsOf(columns, format, number, ParseEach(lines), |lines| - 1)
    ensures errors == ErrorsOf(columns, format, number, ParseEach(lines), |lines| - 1)
  {
    hide HoldingOf, FlatOf, ParsedLine, ParseEach;
    ghost var rows := ParseEach(lines);
    holdings, errors := [], [];
    var row := 1;
    while row < |lines|
      invariant 1 <= row <= |lines|
      invariant holdings == HoldingsOf(columns, format, number, rows, row - 1)
      invariant errors == ErrorsOf(columns, format, number, rows, row - 1)
    {
      var cells := ParseCsvLine(lines[row]);
      var flat := FillRow(columns, cells);
      if Address !in flat {
        errors := errors + [RowWithoutAddress(row + 1)];
      } else {
        holdings := holdings + [HoldingOf(flat, format, number)];
      }
      row := row + 1;
    }
  }

  /** parseHoldingsCsv. */
  method ParseHoldingsCsv(text: string, number: string -> Option<real>) returns (result: ImportResult)
    ensures result == FromRows(RowsOf(text), number)
  {
    hide DetectFormat, ColumnsOf, Lines, ParsedLine, ParseEach, HoldingsOf, ErrorsOf;
    var lines := Lines(text);
    if |lines| == 0 {
      return ImportResult(Generic, [], [EmptyFile], 0);
    }
    var headers := ParseCsvLine(lines[0]);
    var format := DetectFormat(headers);
    var columns := ColumnsOf(headers);
    if Some(Address) !in columns {
      return ImportResult(format, [], [NoAddressColumn], |lines| - 1);
    }
    var holdings, errors := ReadRows(columns, format, lines, number);
    result := ImportResult(format, holdings, errors, |lines| - 1);
  }

  // ---------------------------------------------------------------------------
  // What the import promises
  // ---------------------------------------------------------------------------

  /** A flat row holds, for each field, the last non-empty cell among that field's columns. */
  lemma {:induction false} FlatIsLastNonEmpty(columns: ColumnMap, cells: seq<string>, n: nat, f: Field)
    requires n <= |columns|
    ensures f in FlatOf(columns, cells, n) <==> exists k :: 0 <= k < n && Fills(columns, cells, k, f)
    ensures f in FlatOf(columns, cells, n) ==>
              exists k :: && 0 <= k < n && Fills(columns, cells, k, f) && FlatOf(columns, cells, n)[f] == cells[k]
                          && forall j :: k < j < n ==> !Fills(columns, cells, j, f)
  {
    if n > 0 {
      FlatIsLastNonEmpty(columns, cells, n - 1, f);
      if Fills(columns, cells, n - 1, f) {
        assert FlatOf(columns, cells, n)[f] == cells[n - 1];
      } else {
        assert f in FlatOf(columns, cells, n) <==> f in FlatOf(columns, cells, n - 1);
      }
    }
  }

  /** Some address column of the row has a non-empty cell. */
  predicate HasAddress(columns: ColumnMap, cells: seq<string>) {
    exists k :: 0 <= k < |columns| && Fills(columns, cells, k, Address)
  }

  /** A row becomes a holding exactly when it has an address; otherwise it is an error with its number. */
  lemma RowKeptIff(columns: ColumnMap, format: Format, number: string -> Option<real>, cells: seq<string>, r: nat)
    ensures RowOutcome(columns, format, number, cells, r).Ok? <==> HasAddress(columns, cells)
    ensures !HasAddress(columns, cells) ==>
              RowOutcome(columns, format, number, cells, r) == Err(RowWithoutAddress(r + 1))
  {
    FlatIsLastNonEmpty(columns, cells, |columns|, Address);
    hide FlatOf, Fills, HoldingOf;
  }

  lemma {:induction false} EachRowOnce(columns: ColumnMap, format: Format, number: string -> Option<real>,
                                       rows: seq<seq<string>>, n: nat)
    requires n < |rows|
    ensures |HoldingsOf(columns, format, number, rows, n)| + |ErrorsOf(columns, format, number, rows, n)| == n
  {
    hide RowOutcome;
    if n > 0 {
      EachRowOnce(columns, format, number, rows, n - 1);
    }
  }

  /** There are rows, and the header names an address column. */
  predicate HasAddressColumn(rows: seq<seq<string>>) {
    rows != [] && Some(Address) in ColumnsOf(rows[0])
  }

  /**
   Every row is a holding or an error: the two add up to the row count exactly when there is an
   address column, or when the one fatal error happens to stand for a single row.
   */
  lemma {:induction false} EveryRowAccountedIff(rows: seq<seq<string>>, number: string -> Option<real>)
    ensures var r := FromRows(rows, number);
            |r.holdings| + |r.errors| == r.rowCount <==> HasAddressColumn(rows) || r.rowCount == 1
  {
    hide DetectFormat, ColumnsOf;
    if HasAddressColumn(rows) {
      EachRowOnce(ColumnsOf(rows[0]), DetectFormat(rows[0]), number, rows, |rows| - 1);
    }
  }

  lemma {:induction false} ErrorLines(columns: ColumnMap, format: Format, number: string -> Option<real>,
                                      rows: seq<seq<string>>, n: nat, line: nat)
    requires n < |rows|
    ensures RowWithoutAddress(line) in ErrorsOf(columns, format, number, rows, n) <==>
            2 <= line <= n + 1 && !HasAddress(columns, rows[line - 1])
  {
    hide RowOutcome, HasAddress;
    if n > 0 {
      ErrorLines(columns, format, number, rows, n - 1, line);
      RowKeptIff(columns, format, number, rows[n], n);
    }
  }

  /** The errors name exactly the rows without an address, by their place among the non-blank lines. */
  lemma {:induction false} ErrorsNameSkippedRows(rows: seq<seq<string>>, number: string -> Option<real>, line: nat)
    requires HasAddressColumn(rows)
    ensures RowWithoutAddress(line) in FromRows(rows, number).errors <==>
            2 <= line <= |rows| && !HasAddress(ColumnsOf(rows[0]), rows[line - 1])
  {
    hide DetectFormat, ColumnsOf, HasAddress;
    ErrorLines(ColumnsOf(rows[0]), DetectFormat(rows[0]), number, rows, |rows| - 1, line);
  }

  lemma {:induction false} NamedUpTo(columns: ColumnMap, format: Format, number: string -> Option<real>,
                                     rows: seq<seq<string>>, n: nat)
    requires n < |rows|
    ensures forall h :: h in HoldingsOf(columns, format, number, rows, n) ==>
                          h.address != "" && (h.financials.Some? ==> HasFinancials(h.financials.value))
  {
    if n > 0 {
      NamedUpTo(columns, format, number, rows, n - 1);
      FlatIsLastNonEmpty(columns, rows[n], |columns|, Address);
      hide FlatOf;
    }
  }

  /** No holding has an empty address, and financials hold at least one amount that could be read. */
  lemma {:induction false} HoldingsAreNamed(rows: seq<seq<string>>, number: string -> Option<real>)
    ensures forall h :: h in FromRows(rows, number).holdings ==>
                          h.address != "" && (h.financials.Some? ==> HasFinancials(h.financials.value))
  {
    hide DetectFormat, ColumnsOf, HasFinancials;
    if HasAddressColumn(rows) {
      NamedUpTo(ColumnsOf(rows[0]), DetectFormat(rows[0]), number, rows, |rows| - 1);
    }
  }

  /** Importing an exported file is importing the records themselves, trimmed and without blank ones. */
  lemma {:induction false} ExportThenImport(records: seq<Record>, final: bool, number: string -> Option<real>)
    requires records != [] && forall i :: 0 <= i < |records| ==> records[i].Valid() && !HasBreak(records[i])
    ensures FromRows(RowsOf(EncodeFile(records, final)), number) == FromRows(ExpectedRows(records), number)
  {
    hide EncodeFile, ExpectedRows, Lines, FromRows, HasBreak;
    FileReadsBackIff(records, final);
  }

  /** A file of two rows whose one column is not recognised: one error stands for both rows. */
  lemma NoAddressColumnLosesRows(number: string -> Option<real>)
    ensures var file := EncodeFile([Plain("x"), Plain("y"), Plain("z")], false);
            var r := FromRows(RowsOf(file), number);
            r.rowCount == 2 && |r.holdings| + |r.errors| == 1
  {
    var records := [Plain("x"), Plain("y"), Plain("z")];
    ThreePlainRows();
    UnknownColumn();
    hide EncodeFile, HasBreak, ExpectedRows, RowsOf, ColumnsOf, DetectFormat;
    ExportThenImport(records, false, number);
  }

  lemma ThreePlainRows()
    ensures var records := [Plain("x"), Plain("y"), Plain("z")];
            && (forall i :: 0 <= i < |records| ==> records[i].Valid() && !HasBreak(records[i]))
            && ExpectedRows(records) == [["x"], ["y"], ["z"]]
  {
    PlainRow("x");
    PlainRow("y");
    PlainRow("z");
    hide HasBreak, ExpectedRow;
    var records := [Plain("x"), Plain("y"), Plain("z")];
    assert records[1..] == [Plain("y"), Plain("z")]
        && records[1..][1..] == [Plain("z")] && records[1..][1..][1..] == [];
    assert ExpectedRows(records[1..][1..]) == [["z"]] + [];
    assert ExpectedRows(records[1..]) == [["y"]] + ExpectedRows(records[1..][1..]);
    assert ExpectedRows(records) == [["x"]] + ExpectedRows(records[1..]);
  }

  /** A record of one plain field. */
  function Plain(field: string): Record { Record([field], [false]) }

  lemma PlainRow(field: string)
    requires |field| == 1 && 'x' <= field[0] <= 'z'
    ensures Plain(field).Valid() && !HasBreak(Plain(field)) && ExpectedRow(Plain(field)) == [[field]]
  {
    TrimmedIff(field);
    assert !IsSpace(field[0]) && IsTrimmed(field);
    assert EncodeRecord(Plain(field)) == field;
    assert TrimEach([field]) == [field];
  }

  lemma UnknownColumn()
    ensures Some(Address) !in ColumnsOf(["x"])
  {
    assert Lower("x") == "x";
    assert Collapse("x", false) == ['x'] + Collapse("", false);
    TrimmedIff("x");
  }
}
