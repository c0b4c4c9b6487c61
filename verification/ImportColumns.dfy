/** What each column of the imported tables holds, told from the payload alone. */
module ImportColumns {
  import opened Common
  import opened BulkImport

  /** A row goes to the position that the index has for its address. */
  predicate GoesTo(row: Row, index: map<string, nat>, j: nat) {
    !Blank(row) && Lower(Address(row)) in index && index[Lower(Address(row))] == j
  }

  /** The last value that a row going to a position gives for a column. */
  function LastGiven<T>(rows: seq<Row>, index: map<string, nat>, j: nat, column: Row -> Option<T>): Option<T> {
    if rows == [] then None
    else
      var n := |rows| - 1;
      if GoesTo(rows[n], index, j) && column(rows[n]).Some? then column(rows[n])
      else LastGiven(rows[..n], index, j, column)
  }

  function Kept<T>(given: Option<T>, stored: Option<T>): Option<T> { if given.Some? then given else stored }

  // ---------------------------------------------------------------------------
  // What a row gives
  // ---------------------------------------------------------------------------

  function GivenProperty(row: Row): Option<string> {
    if row.propertyId == Some("") then None else row.propertyId
  }

  function GivenLatitude(row: Row): Option<real> { row.latitude }
  function GivenLongitude(row: Row): Option<real> { row.longitude }
  function GivenDate(row: Row): Option<int> { row.acquisitionDate }

  /** The explicit zip code, or the last one in the address. */
  function GivenZip(row: Row): Option<string> {
    if row.zipCode.Some? && row.zipCode.value != "" then row.zipCode else LastZip(Address(row), "")
  }

  function GivenClass(row: Row): Option<AssetClass> { CoerceAssetClass(row.assetClass) }
  function GivenStatus(row: Row): Option<HoldingStatus> { CoerceStatus(row.status) }

  /** A field of the financials. */
  function Given(f: FinField): Row -> Option<FinValue> {
    (row: Row) =>
      if row.financials.Some? && f in row.financials.value then Some(row.financials.value[f]) else None
  }

  function GivenFinancials(row: Row): Option<FinancialsRow> { row.financials }

  // ---------------------------------------------------------------------------
  // What a position holds
  // ---------------------------------------------------------------------------

  /** Every column of a stored holding has the last value given for it, or the one it had. */
  ghost predicate HoldingColumns(h: Holding, g: Holding, rows: seq<Row>, index: map<string, nat>, j: nat) {
    && g.owner == h.owner && g.portfolioId == h.portfolioId && g.address == h.address
    && g.propertyId == Kept(LastGiven(rows, index, j, GivenProperty), h.propertyId)
    && g.latitude == Kept(LastGiven(rows, index, j, GivenLatitude), h.latitude)
    && g.longitude == Kept(LastGiven(rows, index, j, GivenLongitude), h.longitude)
    && g.zipCode == Kept(LastGiven(rows, index, j, GivenZip), h.zipCode)
    && g.acquisitionDate == Kept(LastGiven(rows, index, j, GivenDate), h.acquisitionDate)
    && Some(g.assetClass) == Kept(LastGiven(rows, index, j, GivenClass), Some(h.assetClass))
    && Some(g.status) == Kept(LastGiven(rows, index, j, GivenStatus), Some(h.status))
  }

  /** The value of a financial field; a new row starts with a vacancy rate of five percent. */
  function FieldOf(fin: Option<FinancialsRow>, f: FinField): Option<FinValue> {
    match fin
    case None => if f == VacancyRate then Some(Amount(0.05)) else None
    case Some(m) => if f in m then Some(m[f]) else None
  }

  /** So has every financial field, of a row that is there if it was or a payload row has financials. */
  ghost predicate FinancialColumns(was: Option<FinancialsRow>, now: Option<FinancialsRow>, rows: seq<Row>,
                                   index: map<string, nat>, j: nat) {
    && (now.Some? <==> was.Some? || LastGiven(rows, index, j, GivenFinancials).Some?)
    && (now.Some? ==> forall f :: FieldOf(now, f) == Kept(LastGiven(rows, index, j, Given(f)), FieldOf(was, f)))
  }

  lemma GivenNext<T>(rows: seq<Row>, index: map<string, nat>, j: nat, column: Row -> Option<T>, stored: Option<T>)
    requires rows != []
    ensures var n := |rows| - 1;
            var earlier := Kept(LastGiven(rows[..n], index, j, column), stored);
            Kept(LastGiven(rows, index, j, column), stored) ==
            if GoesTo(rows[n], index, j) then Kept(column(rows[n]), earlier) else earlier
  {
  }

  lemma HoldingStep(h: Holding, g: Holding, rows: seq<Row>, index: map<string, nat>, j: nat)
    requires rows != [] && HoldingColumns(h, g, rows[..|rows| - 1], index, j)
    ensures var row := rows[|rows| - 1];
            if GoesTo(row, index, j) then Coercible(row) ==> HoldingColumns(h, Updated(g, row), rows, index, j)
            else HoldingColumns(h, g, rows, index, j)
  {
    GivenNext(rows, index, j, GivenProperty, h.propertyId);
    GivenNext(rows, index, j, GivenLatitude, h.latitude);
    GivenNext(rows, index, j, GivenLongitude, h.longitude);
    GivenNext(rows, index, j, GivenZip, h.zipCode);
    GivenNext(rows, index, j, GivenDate, h.acquisitionDate);
    GivenNext(rows, index, j, GivenClass, Some(h.assetClass));
    GivenNext(rows, index, j, GivenStatus, Some(h.status));
    hide LastGiven, GoesTo, CoerceAssetClass, CoerceStatus, LastZip, Strip;
  }

  lemma FinancialStep(was: Option<FinancialsRow>, now: Option<FinancialsRow>, rows: seq<Row>, index: map<string, nat>,
                      j: nat, next: Option<FinancialsRow>)
    requires rows != [] && FinancialColumns(was, now, rows[..|rows| - 1], index, j)
    requires var row := rows[|rows| - 1];
             next == if GoesTo(row, index, j) && row.financials.Some?
                     then Some((if now.Some? then now.value else DEFAULTS) + row.financials.value) else now
    ensures FinancialColumns(was, next, rows, index, j)
  {
    GivenNext(rows, index, j, GivenFinancials, None);
    forall f ensures next.Some? ==> FieldOf(next, f) == Kept(LastGiven(rows, index, j, Given(f)), FieldOf(was, f)) {
      GivenNext(rows, index, j, Given(f), FieldOf(was, f));
      if now == None { NoneGiven(rows[..|rows| - 1], index, j, f); }
    }
    hide LastGiven, GoesTo;
  }

  lemma {:induction false} NoneGiven(rows: seq<Row>, index: map<string, nat>, j: nat, f: FinField)
    requires LastGiven(rows, index, j, GivenFinancials) == None
    ensures LastGiven(rows, index, j, Given(f)) == None
  {
    if rows != [] {
      NoneGiven(rows[..|rows| - 1], index, j, f);
    }
  }

  /**
   After any import that completes, whatever addresses repeat, every column of every stored holding, and
   every field of its financials, is the last one that a row for it gives, or what it was.
   */
  lemma {:induction false} StoredColumns(t: Tables, index: map<string, nat>, user: string, portfolioId: string,
                                         rows: seq<Row>, j: nat)
    requires j < |t.holdings| && Applied(t, index, user, portfolioId, rows).Ok?
    requires forall key :: key in index ==> index[key] < |t.holdings|
    ensures var after := Applied(t, index, user, portfolioId, rows).value.tables;
            && |t.holdings| <= |after.holdings|
            && HoldingColumns(t.holdings[j], after.holdings[j], rows, index, j)
            && FinancialColumns(FinAt(t, j), FinAt(after, j), rows, index, j)
  {
    hide HoldingColumns, FinancialColumns;
    if rows == [] {
      NoRowsNoChange(t, index, j);
    } else {
      var n := |rows| - 1;
      var p := Applied(t, index, user, portfolioId, rows[..n]).value;
      StoredColumns(t, index, user, portfolioId, rows[..n], j);
      HoldingStep(t.holdings[j], p.tables.holdings[j], rows, index, j);
      var next := Applied(t, index, user, portfolioId, rows).value.tables;
      StepAtPosition(p, index, user, portfolioId, rows[n], j);
      FinancialStep(FinAt(t, j), FinAt(p.tables, j), rows, index, j, FinAt(next, j));
      hide Step, Updated, Created, GoesTo, Coercible, Blank, FinAt;
    }
  }

  lemma NoRowsNoChange(t: Tables, index: map<string, nat>, j: nat)
    requires j < |t.holdings|
    ensures HoldingColumns(t.holdings[j], t.holdings[j], [], index, j)
    ensures FinancialColumns(FinAt(t, j), FinAt(t, j), [], index, j)
  {
  }

  lemma StepAtPosition(p: Progress, index: map<string, nat>, user: string, portfolioId: string, row: Row, j: nat)
    requires j < |p.tables.holdings| && Step(p, index, user, portfolioId, row).Ok?
    requires forall key :: key in index ==> index[key] < |p.tables.holdings|
    ensures var next := Step(p, index, user, portfolioId, row).value.tables;
            && |p.tables.holdings| <= |next.holdings|
            && (GoesTo(row, index, j) ==> Coercible(row))
            && next.holdings[j] == (if GoesTo(row, index, j) then Updated(p.tables.holdings[j], row)
                                    else p.tables.holdings[j])
            && FinAt(next, j) == if GoesTo(row, index, j) && row.financials.Some?
                                 then Some((if FinAt(p.tables, j).Some? then FinAt(p.tables, j).value else DEFAULTS)
                                           + row.financials.value)
                                 else FinAt(p.tables, j)
  {
    hide Strip, Lower, Updated, Created, CoerceAssetClass, CoerceStatus;
  }

  // ---------------------------------------------------------------------------
  // What an insert holds
  // ---------------------------------------------------------------------------

  /** A new holding has the columns of its row, and financials exactly if the row has. */
  ghost predicate InsertedColumns(g: Holding, fin: Option<FinancialsRow>, user: string, portfolioId: string, row: Row) {
    && g.owner == user && g.portfolioId == portfolioId && g.address == Strip(row.address)
    && g.propertyId == row.propertyId && g.latitude == row.latitude && g.longitude == row.longitude
    && g.zipCode == GivenZip(row) && g.acquisitionDate == row.acquisitionDate
    && Some(g.assetClass) == GivenClass(row) && Some(g.status) == GivenStatus(row)
    && (fin.Some? <==> row.financials.Some?)
    && (fin.Some? ==> forall f :: FieldOf(fin, f) == Kept(Given(f)(row), FieldOf(None, f)))
  }

  /** The rows under addresses that the table did not hold follow the stored holdings in order. */
  lemma {:induction false} InsertsFollow(t: Tables, index: map<string, nat>, user: string, portfolioId: string,
                                         rows: seq<Row>, m: nat)
    requires Applied(t, index, user, portfolioId, rows).Ok? && m < |Inserts(rows, index)|
    requires forall key :: key in index ==> index[key] < |t.holdings|
    requires forall id :: id in t.financials ==> id < |t.holdings|
    ensures var after := Applied(t, index, user, portfolioId, rows).value.tables;
            && |after.holdings| == |t.holdings| + |Inserts(rows, index)|
            && InsertedColumns(after.holdings[|t.holdings| + m], FinAt(after, |t.holdings| + m), user, portfolioId,
                               Inserts(rows, index)[m])
    decreases |rows|
  {
    hide InsertedColumns;
    var n := |rows| - 1;
    var p := Applied(t, index, user, portfolioId, rows[..n]).value;
    var front := Inserts(rows[..n], index);
    InsertsCounted(t, index, user, portfolioId, rows[..n]);
    if m < |front| {
      InsertsFollow(t, index, user, portfolioId, rows[..n], m);
      StepAtPosition(p, index, user, portfolioId, rows[n], |t.holdings| + m);
    }
    StepInserts(p, index, user, portfolioId, rows[n]);
    hide Step, Blank, Coercible, Lower, Strip, FinAt;
  }

  /** No financials wait for a holding that is not there yet. */
  lemma {:induction false} InsertsCounted(t: Tables, index: map<string, nat>, user: string, portfolioId: string,
                                          rows: seq<Row>)
    requires Applied(t, index, user, portfolioId, rows).Ok?
    requires forall key :: key in index ==> index[key] < |t.holdings|
    requires forall id :: id in t.financials ==> id < |t.holdings|
    ensures var after := Applied(t, index, user, portfolioId, rows).value.tables;
            && |after.holdings| == |t.holdings| + |Inserts(rows, index)|
            && (forall id :: id in after.financials ==> id < |after.holdings|)
  {
    hide Strip, Lower, Updated, Created, CoerceAssetClass, CoerceStatus;
    if rows != [] {
      InsertsCounted(t, index, user, portfolioId, rows[..|rows| - 1]);
    }
  }

  /** A row under an unknown address goes to the end of the table. */
  lemma StepInserts(p: Progress, index: map<string, nat>, user: string, portfolioId: string, row: Row)
    requires Step(p, index, user, portfolioId, row).Ok?
    requires forall id :: id in p.tables.financials ==> id < |p.tables.holdings|
    ensures var next, n := Step(p, index, user, portfolioId, row).value.tables, |p.tables.holdings|;
            !Blank(row) && Lower(Address(row)) !in index ==>
              |next.holdings| == n + 1 && InsertedColumns(next.holdings[n], FinAt(next, n), user, portfolioId, row)
  {
    hide Strip, Lower, CoerceAssetClass, CoerceStatus, LastZip;
  }

  // ---------------------------------------------------------------------------
  // Names and zip codes
  // ---------------------------------------------------------------------------

  function ClassName(c: AssetClass): string {
    match c
    case Sfr => "sfr"
    case Mf2To4 => "mf_2_4"
    case Mf5Plus => "mf_5_plus"
    case Condo => "condo"
    case Townhouse => "townhouse"
  }

  function StatusName(status: HoldingStatus): string {
    match status
    case Held => "held"
    case UnderRehab => "under_rehab"
    case Listed => "listed"
    case Sold => "sold"
  }

  /** A class or status is read from its own name and from nothing else. */
  lemma NamesAreRead(s: string, c: AssetClass, status: HoldingStatus)
    ensures CoerceAssetClass(s) == Some(c) <==> s == ClassName(c)
    ensures CoerceStatus(s) == Some(status) <==> s == StatusName(status)
  {
    assert |"sfr"| == 3 && |"mf_2_4"| == 6 && |"mf_5_plus"| == 9 && |"condo"| == 5 && |"townhouse"| == 9;
    assert "mf_5_plus"[0] == 'm' && "townhouse"[0] == 't';
    assert |"held"| == 4 && |"under_rehab"| == 11 && |"listed"| == 6 && |"sold"| == 4;
    assert "held"[0] == 'h' && "sold"[0] == 's';
  }

  predicate Separates(c: char) { c == ',' || IsSpace(c) }

  predicate FiveDigits(word: string) { |word| == 5 && forall i :: 0 <= i < 5 ==> word[i] in "0123456789" }

  lemma ZipIsFiveDigits(word: string)
    ensures IsZip(word) <==> FiveDigits(word)
  {
    if |word| == 5 {
      forall i | 0 <= i < 5 ensures '0' <= word[i] <= '9' <==> word[i] in "0123456789" {
        IsDigit(word[i]);
      }
    }
  }

  lemma IsDigit(c: char)
    ensures '0' <= c <= '9' <==> c in "0123456789"
  {
    var digits := "0123456789";
    assert forall k :: 0 <= k < 10 ==> digits[k] == '0' + k as char;
    if '0' <= c <= '9' {
      assert digits[c as int - '0' as int] == c;
    }
  }

  /** The five characters from i on are a word of their own, and digits. */
  predicate ZipAt(s: string, i: int) {
    && 0 <= i && i + 5 <= |s| && FiveDigits(s[i..i + 5])
    && (i == 0 || Separates(s[i - 1])) && (i + 5 == |s| || Separates(s[i + 5]))
  }

  predicate OneWord(word: string) { forall i :: 0 <= i < |word| ==> !Separates(word[i]) }

  /** The zip code found is the last word of five digits, and there is none exactly when no word is one. */
  lemma LastZipIsLast(s: string)
    ensures match LastZip(s, "")
            case None => forall i :: !ZipAt(s, i)
            case Some(zip) => exists i :: ZipAt(s, i) && zip == s[i..i + 5] && forall k :: k > i ==> !ZipAt(s, k)
  {
    LastZipBefore(s, "");
    assert s + "" == s;
    assert forall i :: i > |s| ==> !ZipAt(s, i);
  }

  /** A word at the end is a zip code of its own exactly when it is five digits. */
  lemma WordAtEnd(s: string, word: string)
    requires OneWord(word) && (s == "" || Separates(s[|s| - 1]))
    ensures ZipAt(s + word, |s|) <==> IsZip(word)
    ensures IsZip(word) ==> (s + word)[|s|..|s| + 5] == word
  {
    var all := s + word;
    ZipIsFiveDigits(word);
    assert |word| > 5 ==> all[|s| + 5] == word[5];
    if |word| >= 5 {
      assert all[|s|..|s| + 5] == word[..5];
      assert |word| == 5 ==> word[..5] == word;
    }
  }

  /** A separator ends the words before it. */
  lemma CutAtSeparator(s: string, c: char, word: string, i: int)
    requires Separates(c) && i <= |s|
    ensures ZipAt(s + [c] + word, i) <==> ZipAt(s, i)
    ensures ZipAt(s, i) ==> (s + [c] + word)[i..i + 5] == s[i..i + 5]
  {
    var all := s + [c] + word;
    assert all[|s|] == c;
    assert 0 <= i && |s| < i + 5 <= |all| ==> all[i..i + 5][|s| - i] == c;
    if 0 <= i && i + 5 <= |s| {
      assert all[i..i + 5] == s[i..i + 5];
      assert i + 5 < |s| ==> all[i + 5] == s[i + 5];
    }
  }

  /** What the search has passed: nothing to the right of s but word, which has no separator. */
  ghost predicate LastFrom(zip: Option<string>, all: string, n: int) {
    match zip
    case None => forall i :: i <= n ==> !ZipAt(all, i)
    case Some(z) =>
      exists i :: i <= n && ZipAt(all, i) && z == all[i..i + 5] && forall k :: i < k <= n ==> !ZipAt(all, k)
  }

  lemma {:induction false} LastZipBefore(s: string, word: string)
    requires OneWord(word)
    ensures LastFrom(LastZip(s, word), s + word, |s|)
    decreases |s|
  {
    hide IsZip, FiveDigits;
    if s == "" {
      WordAtEnd(s, word);
      assert s + word == word;
    } else {
      var n := |s| - 1;
      var c := s[n];
      assert s == s[..n] + [c];
      if Separates(c) {
        WordAtEnd(s, word);
        if !IsZip(word) {
          LastZipBefore(s[..n], "");
          assert s[..n] + "" == s[..n];
          forall i | i <= n
            ensures ZipAt(s + word, i) <==> ZipAt(s[..n], i)
            ensures ZipAt(s[..n], i) ==> (s + word)[i..i + 5] == s[..n][i..i + 5]
          {
            CutAtSeparator(s[..n], c, word, i);
          }
          StillLast(LastZip(s[..n], ""), s[..n], s + word, n);
        }
      } else {
        LastZipBefore(s[..n], [c] + word);
        assert s[..n] + ([c] + word) == s + word;
        assert !ZipAt(s + word, |s|);
      }
    }
  }

  lemma StillLast(zip: Option<string>, front: string, all: string, n: int)
    requires LastFrom(zip, front, n) && !ZipAt(all, n + 1)
    requires forall i :: i <= n ==> (ZipAt(all, i) <==> ZipAt(front, i))
    requires forall i :: i <= n && ZipAt(front, i) ==> ZipAt(all, i) && all[i..i + 5] == front[i..i + 5]
    ensures LastFrom(zip, all, n + 1)
  {
    hide FiveDigits, Separates;
    if zip.Some? {
      var i :| i <= n && ZipAt(front, i) && zip.value == front[i..i + 5] && forall k :: i < k <= n ==> !ZipAt(front, k);
    }
  }
}
