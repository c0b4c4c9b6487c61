/**
 The address-keyed bulk import of holdings: match by normalised address, update in place or
 insert, all or nothing.
 */
module BulkImport {
  import opened Common

  // ---------------------------------------------------------------------------
  // Text
  // ---------------------------------------------------------------------------

  predicate IsSpace(c: char) { c == ' ' || c == '\t' || c == '\n' || c == '\r' || c == '\U{3000}' }

  function TrimLeft(s: string): (t: string)
    ensures |t| <= |s|
    ensures t == "" || !IsSpace(t[0])
  {
    if s != "" && IsSpace(s[0]) then TrimLeft(s[1..]) else s
  }

  function TrimRight(s: string): (t: string)
    ensures |t| <= |s| && t == s[..|t|]
    ensures t == "" || !IsSpace(t[|t| - 1])
  {
    if s != "" && IsSpace(s[|s| - 1]) then TrimRight(s[..|s| - 1]) else s
  }

  /** str.strip. */
  function Strip(s: string): string { TrimRight(TrimLeft(s)) }

  lemma StripIdempotent(s: string)
    ensures Strip(Strip(s)) == Strip(s)
  {
    var l := TrimLeft(s);
    var t := TrimRight(l);
    if t != "" {
      assert t[0] == l[0];
    }
  }

  predicate IsZip(token: string) { |token| == 5 && forall i :: 0 <= i < 5 ==> '0' <= token[i] <= '9' }

  /** The last five-digit token of s + word, where commas and spaces separate tokens. */
  function LastZip(s: string, word: string): (zip: Option<string>)
    ensures zip.Some? ==> IsZip(zip.value)
    decreases |s|
  {
    if s == "" then if IsZip(word) then Some(word) else None
    else
      var c := s[|s| - 1];
      if c == ',' || IsSpace(c) then if IsZip(word) then Some(word) else LastZip(s[..|s| - 1], "")
      else LastZip(s[..|s| - 1], [c] + word)
  }

  predicate Truthy(s: Option<string>) { s.Some? && s.value != "" }

  function OrKeep(given: Option<string>, kept: Option<string>): Option<string> { if Truthy(given) then given else kept }

  /** _zip_from_address. */
  function ZipFor(address: string, explicit: Option<string>): Option<string> {
    if Truthy(explicit) then explicit else LastZip(address, "")
  }

  // ---------------------------------------------------------------------------
  // Rows and tables
  // ---------------------------------------------------------------------------

  datatype AssetClass = Sfr | Mf2To4 | Mf5Plus | Condo | Townhouse
  datatype HoldingStatus = Held | UnderRehab | Listed | Sold

  function CoerceAssetClass(s: string): Option<AssetClass> {
    if s == "sfr" then Some(Sfr) else if s == "mf_2_4" then Some(Mf2To4) else if s == "mf_5_plus" then Some(Mf5Plus)
    else if s == "condo" then Some(Condo) else if s == "townhouse" then Some(Townhouse) else None
  }

  function CoerceStatus(s: string): Option<HoldingStatus> {
    if s == "held" then Some(Held) else if s == "under_rehab" then Some(UnderRehab)
    else if s == "listed" then Some(Listed) else if s == "sold" then Some(Sold) else None
  }

  datatype FinField =
    | CostBasis | CurrentValueEstimate | ValueEstimateSource | LoanBalance | InterestRate | MonthlyPiti
    | MonthlyRent | VacancyRate | MonthlyOpexEstimate | PropertyTaxAnnual | InsuranceAnnual

  datatype FinValue = Amount(x: real) | Label(s: string)

  /** A financials row; a null column is absent. */
  type FinancialsRow = map<FinField, FinValue>

  /** A stored holding; owner is the user of its portfolio. */
  datatype Holding = Holding(
    owner: string, portfolioId: string, address: string, propertyId: Option<string>, latitude: Option<real>,
    longitude: Option<real>, zipCode: Option<string>, assetClass: AssetClass, status: HoldingStatus,
    acquisitionDate: Option<int>)

  /** A payload row; financials holds only the fields that are not null. */
  datatype Row = Row(
    address: string, assetClass: string, status: string, propertyId: Option<string>, latitude: Option<real>,
    longitude: Option<real>, zipCode: Option<string>, acquisitionDate: Option<int>, financials: Option<FinancialsRow>)

  /** A holding's id is its position; its financials, if any, are stored under that id. */
  datatype Tables = Tables(holdings: seq<Holding>, financials: map<nat, FinancialsRow>)

  function Address(row: Row): string { Strip(row.address) }
  function Norm(address: string): string { Lower(Strip(address)) }
  function Blank(row: Row): bool { Address(row) == "" }

  lemma NormOfStored(row: Row)
    ensures Norm(Address(row)) == Norm(row.address) == Lower(Address(row))
  {
    StripIdempotent(row.address);
  }

  predicate Coercible(row: Row) {
    CoerceAssetClass(row.assetClass).Some? && CoerceStatus(row.status).Some?
  }

  /** A matched holding after a row has been applied to it. */
  function Updated(h: Holding, row: Row): Holding
    requires Coercible(row)
  {
    h.(assetClass := CoerceAssetClass(row.assetClass).value,
       status := CoerceStatus(row.status).value,
       zipCode := OrKeep(ZipFor(Address(row), row.zipCode), h.zipCode),
       propertyId := OrKeep(row.propertyId, h.propertyId),
       latitude := if row.latitude.Some? then row.latitude else h.latitude,
       longitude := if row.longitude.Some? then row.longitude else h.longitude,
       acquisitionDate := if row.acquisitionDate.Some? then row.acquisitionDate else h.acquisitionDate)
  }

  function Created(owner: string, portfolioId: string, row: Row): Holding
    requires Coercible(row)
  {
    Holding(owner, portfolioId, Address(row), row.propertyId, row.latitude, row.longitude,
            ZipFor(Address(row), row.zipCode), CoerceAssetClass(row.assetClass).value,
            CoerceStatus(row.status).value, row.acquisitionDate)
  }

  /** A new financials row: column defaults, then the given fields. */
  const DEFAULTS: FinancialsRow := map[VacancyRate := Amount(0.05)]

  function WithFinancials(fins: map<nat, FinancialsRow>, id: nat, row: Row): map<nat, FinancialsRow> {
    match row.financials
    case None => fins
    case Some(data) => fins[id := (if id in fins then fins[id] else DEFAULTS) + data]
  }

  /** The order in which the query returns the holdings; it asks for none in particular. */
  ghost predicate IsOrder(order: seq<nat>, n: nat) {
    && |order| == n
    && (forall i :: 0 <= i < n ==> order[i] < n && i in order)
    && (forall i, j :: 0 <= i < j < n ==> order[i] != order[j])
  }

  /** by_address: later holdings of the answer overwrite earlier ones with the same key. */
  function ByAddress(holdings: seq<Holding>, user: string, order: seq<nat>): map<string, nat>
    requires forall k :: 0 <= k < |order| ==> order[k] < |holdings|
  {
    if order == [] then map[]
    else
      var n := |order| - 1;
      var i := order[n];
      var front := ByAddress(holdings, user, order[..n]);
      if holdings[i].owner == user && holdings[i].address != "" then front[Norm(holdings[i].address) := i] else front
  }

  datatype ImportError = NoHoldings | BadEnum

  datatype Progress = Progress(tables: Tables, inserted: nat, updated: nat, skipped: nat)

  /** One row; byAddress was built before the loop and is not extended by inserts. */
  function Step(p: Progress, byAddress: map<string, nat>, user: string, portfolioId: string,
                row: Row): Result<Progress, ImportError> {
    if Blank(row) then Ok(p.(skipped := p.skipped + 1))
    else if !Coercible(row) then Err(BadEnum)
    else
      var key := Lower(Address(row));
      var t := p.tables;
      if key in byAddress && byAddress[key] < |t.holdings| then
        var i := byAddress[key];
        Ok(p.(tables := Tables(t.holdings[i := Updated(t.holdings[i], row)], WithFinancials(t.financials, i, row)),
              updated := p.updated + 1))
      else
        var i := |t.holdings|;
        Ok(p.(tables := Tables(t.holdings + [Created(user, portfolioId, row)], WithFinancials(t.financials, i, row)),
              inserted := p.inserted + 1))
  }

  function Applied(t: Tables, byAddress: map<string, nat>, user: string, portfolioId: string,
                   rows: seq<Row>): Result<Progress, ImportError> {
    if rows == [] then Ok(Progress(t, 0, 0, 0))
    else
      match Applied(t, byAddress, user, portfolioId, rows[..|rows| - 1])
      case Err(e) => Err(e)
      case Ok(p) => Step(p, byAddress, user, portfolioId, rows[|rows| - 1])
  }

  function Imported(t: Tables, order: seq<nat>, user: string, portfolioId: string, rows: seq<Row>)
    : Result<Progress, ImportError>
    requires forall k :: 0 <= k < |order| ==> order[k] < |t.holdings|
  {
    if rows == [] then Err(NoHoldings)
    else Applied(t, ByAddress(t.holdings, user, order), user, portfolioId, rows)
  }

  /** The dictionary of the user's holdings, filled in the order of the query's answer. */
  method IndexByAddress(holdings: seq<Holding>, user: string, order: seq<nat>) returns (byAddress: map<string, nat>)
    requires forall k :: 0 <= k < |order| ==> order[k] < |holdings|
    ensures byAddress == ByAddress(holdings, user, order)
  {
    hide Norm;
    byAddress := map[];
    for k := 0 to |order|
      invariant byAddress == ByAddress(holdings, user, order[..k])
    {
      assert order[..k + 1][..k] == order[..k];
      var h := holdings[order[k]];
      if h.owner == user && h.address != "" {
        byAddress := byAddress[Norm(h.address) := order[k]];
      }
    }
    assert order[..|order|] == order;
  }

  /** The loop over the payload, on the session's uncommitted tables. */
  method ApplyRows(t: Tables, byAddress: map<string, nat>, user: string, portfolioId: string, rows: seq<Row>)
    returns (r: Result<Progress, ImportError>)
    ensures r == Applied(t, byAddress, user, portfolioId, rows)
  {
    hide Strip, Lower, CoerceAssetClass, CoerceStatus, Updated, Created, WithFinancials;
    var holdings, financials := t.holdings, t.financials;
    var inserted, updated, skipped := 0, 0, 0;
    for k := 0 to |rows|
      invariant Applied(t, byAddress, user, portfolioId, rows[..k])
                == Ok(Progress(Tables(holdings, financials), inserted, updated, skipped))
    {
      assert rows[..k + 1][..k] == rows[..k];
      var row := rows[k];
      var addr := Strip(row.address);
      if addr == "" {
        skipped := skipped + 1;
        continue;
      }
      if CoerceAssetClass(row.assetClass) == None || CoerceStatus(row.status) == None {
        FirstErrorStays(t, byAddress, user, portfolioId, rows, k + 1);
        return Err(BadEnum);
      }
      var key := Lower(addr);
      if key in byAddress && byAddress[key] < |holdings| {
        var i := byAddress[key];
        holdings := holdings[i := Updated(holdings[i], row)];
        financials := WithFinancials(financials, i, row);
        updated := updated + 1;
      } else {
        holdings := holdings + [Created(user, portfolioId, row)];
        financials := WithFinancials(financials, |holdings| - 1, row);
        inserted := inserted + 1;
      }
    }
    assert rows[..|rows|] == rows;
    r := Ok(Progress(Tables(holdings, financials), inserted, updated, skipped));
  }

  /** The holdings tables behind a session. */
  class HoldingsDb {
    var tables: Tables

    constructor (t: Tables)
      ensures tables == t
    {
      tables := t;
    }

    /** _bulk_import_holdings; an error leaves the uncommitted session, and so the tables, unchanged. */
    method Import(order: seq<nat>, user: string, portfolioId: string, rows: seq<Row>)
      returns (r: Result<(nat, nat, nat), ImportError>)
      requires IsOrder(order, |tables.holdings|)
      modifies this
      ensures match Imported(old(tables), order, user, portfolioId, rows)
              case Err(e) => r == Err(e) && tables == old(tables)
              case Ok(p) => r == Ok((p.inserted, p.updated, p.skipped)) && tables == p.tables
    {
      if rows == [] {
        return Err(NoHoldings);
      }
      var byAddress := IndexByAddress(tables.holdings, user, order);
      var applied := ApplyRows(tables, byAddress, user, portfolioId, rows);
      if applied.Err? {
        return Err(applied.error);
      }
      tables := applied.value.tables;
      return Ok((applied.value.inserted, applied.value.updated, applied.value.skipped));
    }
  }

  lemma {:induction false} FirstErrorStays(t: Tables, byAddress: map<string, nat>, user: string, portfolioId: string,
                                           rows: seq<Row>, k: nat)
    requires k <= |rows| && Applied(t, byAddress, user, portfolioId, rows[..k]).Err?
    ensures Applied(t, byAddress, user, portfolioId, rows) == Applied(t, byAddress, user, portfolioId, rows[..k])
    decreases |rows|
  {
    if k == |rows| {
      assert rows[..k] == rows;
    } else {
      assert rows[..|rows| - 1][..k] == rows[..k];
      FirstErrorStays(t, byAddress, user, portfolioId, rows[..|rows| - 1], k);
    }
  }

  // ---------------------------------------------------------------------------
  // Every row is accounted for
  // ---------------------------------------------------------------------------

  lemma {:induction false} EveryRowCounted(t: Tables, byAddress: map<string, nat>, user: string, portfolioId: string,
                                           rows: seq<Row>)
    ensures var r := Applied(t, byAddress, user, portfolioId, rows);
            r.Ok? ==> r.value.inserted + r.value.updated + r.value.skipped == |rows|
  {
    hide Lower, Strip, Updated, Created, WithFinancials;
    if rows != [] {
      EveryRowCounted(t, byAddress, user, portfolioId, rows[..|rows| - 1]);
    }
  }

  // ---------------------------------------------------------------------------
  // The address index
  // ---------------------------------------------------------------------------

  /** Position i holds a holding of the user under a key. */
  ghost predicate LivesAt(holdings: seq<Holding>, user: string, key: string, i: nat) {
    i < |holdings| && holdings[i].owner == user && holdings[i].address != "" && Norm(holdings[i].address) == key
  }

  /** An index of the holdings: each key that is lived under leads to a holding living there. */
  ghost predicate IsIndex(holdings: seq<Holding>, user: string, index: map<string, nat>) {
    && (forall key :: key in index ==> LivesAt(holdings, user, key, index[key]))
    && (forall key, i :: LivesAt(holdings, user, key, i) ==> key in index)
  }

  lemma {:induction false} FoundInOrder(holdings: seq<Holding>, user: string, order: seq<nat>, key: string)
    requires forall k :: 0 <= k < |order| ==> order[k] < |holdings|
    ensures var index := ByAddress(holdings, user, order);
            && (key in index ==> LivesAt(holdings, user, key, index[key]))
            && (key !in index ==> forall k :: 0 <= k < |order| ==> !LivesAt(holdings, user, key, order[k]))
  {
    hide Norm;
    if order != [] {
      FoundInOrder(holdings, user, order[..|order| - 1], key);
    }
  }

  /** Whatever the order of the answer, by_address is an index. */
  lemma EveryOrderIndexes(holdings: seq<Holding>, user: string, order: seq<nat>)
    requires IsOrder(order, |holdings|)
    ensures IsIndex(holdings, user, ByAddress(holdings, user, order))
  {
    hide LivesAt, ByAddress;
    var index := ByAddress(holdings, user, order);
    forall key ensures key in index ==> LivesAt(holdings, user, key, index[key]) {
      FoundInOrder(holdings, user, order, key);
    }
    forall key, i | LivesAt(holdings, user, key, i) ensures key in index {
      FoundInOrder(holdings, user, order, key);
      LivesInside(holdings, user, key, i);
      assert i in order;
    }
  }

  /** At most one holding of the user per key. */
  ghost predicate OnePerAddress(holdings: seq<Holding>, user: string) {
    forall key, i: nat, j: nat ::
      key != "" && LivesAt(holdings, user, key, i) && LivesAt(holdings, user, key, j) ==> i == j
  }

  /** The rows the import inserts: not blank and under a key the table did not have. */
  function Inserts(rows: seq<Row>, byAddress: map<string, nat>): seq<Row> {
    if rows == [] then []
    else
      var last := rows[|rows| - 1];
      Inserts(rows[..|rows| - 1], byAddress)
      + (if !Blank(last) && Lower(Address(last)) !in byAddress then [last] else [])
  }

  ghost predicate SamePlace(a: Holding, b: Holding) { a.owner == b.owner && a.address == b.address }

  /** after is before with holdings updated in place and the inserted rows appended in order. */
  ghost predicate Grown(before: seq<Holding>, after: seq<Holding>, user: string, inserts: seq<Row>) {
    && |after| == |before| + |inserts|
    && (forall i :: 0 <= i < |before| ==> SamePlace(before[i], after[i]))
    && (forall k :: |before| <= k < |after| ==>
      after[k].owner == user && after[k].address == Address(inserts[k - |before|]))
  }

  lemma {:induction false} ImportGrows(t: Tables, index: map<string, nat>, user: string, portfolioId: string,
                                       rows: seq<Row>)
    requires IsIndex(t.holdings, user, index)
    ensures var r := Applied(t, index, user, portfolioId, rows);
            r.Ok? ==> Grown(t.holdings, r.value.tables.holdings, user, Inserts(rows, index))
  {
    hide Lower, Strip, WithFinancials, ZipFor, CoerceAssetClass, CoerceStatus;
    if rows != [] {
      var last := rows[|rows| - 1];
      ImportGrows(t, index, user, portfolioId, rows[..|rows| - 1]);
      var front := Applied(t, index, user, portfolioId, rows[..|rows| - 1]);
      if front.Ok? && Coercible(last) {
        StepGrows(t.holdings, front.value, index, user, portfolioId, last, Inserts(rows[..|rows| - 1], index));
      } else if front.Ok? && Blank(last) {
        assert Inserts(rows[..|rows| - 1], index) + [] == Inserts(rows[..|rows| - 1], index);
      }
    }
  }

  lemma StepGrows(before: seq<Holding>, p: Progress, index: map<string, nat>, user: string, portfolioId: string,
                  row: Row, inserts: seq<Row>)
    requires Grown(before, p.tables.holdings, user, inserts) && Coercible(row)
    requires Lower(Address(row)) in index ==> index[Lower(Address(row))] < |before|
    ensures Grown(before, Step(p, index, user, portfolioId, row).value.tables.holdings, user,
                  inserts + (if !Blank(row) && Lower(Address(row)) !in index then [row] else []))
  {
    hide Lower, Strip, WithFinancials, ZipFor, CoerceAssetClass, CoerceStatus;
    var now, after := p.tables.holdings, Step(p, index, user, portfolioId, row).value.tables.holdings;
    assert inserts + [] == inserts;
    if !Blank(row) {
      var key := Lower(Address(row));
      if key in index {
        GrownInPlace(before, now, user, inserts, index[key], Updated(now[index[key]], row));
      } else {
        GrownAtEnd(before, now, user, inserts, row, Created(user, portfolioId, row));
      }
    }
  }

  lemma GrownInPlace(before: seq<Holding>, now: seq<Holding>, user: string, inserts: seq<Row>, i: nat, h: Holding)
    requires Grown(before, now, user, inserts) && i < |before| && SamePlace(now[i], h)
    ensures Grown(before, now[i := h], user, inserts)
  {
    hide Strip;
    var after := now[i := h];
    assert SamePlace(before[i], now[i]);
    forall k | 0 <= k < |before| ensures SamePlace(before[k], after[k]) {
      assert SamePlace(before[k], now[k]);
    }
  }

  lemma GrownAtEnd(before: seq<Holding>, now: seq<Holding>, user: string, inserts: seq<Row>, row: Row, h: Holding)
    requires Grown(before, now, user, inserts) && h.owner == user && h.address == Address(row)
    ensures Grown(before, now + [h], user, inserts + [row])
  {
    hide Strip;
    var after := now + [h];
    forall k | |before| <= k < |after|
      ensures after[k].owner == user && after[k].address == Address((inserts + [row])[k - |before|])
    {
      if k < |now| { assert after[k] == now[k] && (inserts + [row])[k - |before|] == inserts[k - |before|]; }
    }
  }

  /** No two of the inserted rows share a key. */
  ghost predicate DistinctKeys(rows: seq<Row>) {
    forall i, j :: 0 <= i < j < |rows| ==> Lower(Address(rows[i])) != Lower(Address(rows[j]))
  }

  lemma {:induction false} InsertsAreNew(rows: seq<Row>, byAddress: map<string, nat>)
    ensures forall j :: 0 <= j < |Inserts(rows, byAddress)| ==>
              !Blank(Inserts(rows, byAddress)[j]) && Lower(Address(Inserts(rows, byAddress)[j])) !in byAddress
  {
    hide Lower, Strip;
    if rows != [] {
      InsertsAreNew(rows[..|rows| - 1], byAddress);
    }
  }

  lemma GrownPlaces(before: seq<Holding>, after: seq<Holding>, user: string, inserts: seq<Row>, key: string, i: nat)
    requires Grown(before, after, user, inserts)
    requires forall j :: 0 <= j < |inserts| ==> !Blank(inserts[j])
    ensures LivesAt(after, user, key, i) <==>
              LivesAt(before, user, key, i)
              || (|before| <= i < |after| && Lower(Address(inserts[i - |before|])) == key)
  {
    if |before| <= i < |after| {
      NormOfStored(inserts[i - |before|]);
    }
  }

  /**
   An import keeps at most one holding per address exactly when no two of the rows it inserts
   share a normalised address. (Inserts do not enter the index, so two such rows both land.)
   */
  lemma {:induction false} UniquenessKeptIff(t: Tables, order: seq<nat>, user: string, portfolioId: string,
                                             rows: seq<Row>)
    requires IsOrder(order, |t.holdings|)
    requires OnePerAddress(t.holdings, user) && Imported(t, order, user, portfolioId, rows).Ok?
    ensures OnePerAddress(Imported(t, order, user, portfolioId, rows).value.tables.holdings, user)
       <==> DistinctKeys(Inserts(rows, ByAddress(t.holdings, user, order)))
  {
    var index := ByAddress(t.holdings, user, order);
    var before, after := t.holdings, Imported(t, order, user, portfolioId, rows).value.tables.holdings;
    EveryOrderIndexes(before, user, order);
    hide ByAddress, IsIndex, Grown, OnePerAddress, DistinctKeys, IsOrder;
    ImportGrows(t, index, user, portfolioId, rows);
    InsertsAreNew(rows, index);
    UniqueAfterGrowth(before, after, user, index, Inserts(rows, index));
  }

  lemma UniqueAfterGrowth(before: seq<Holding>, after: seq<Holding>, user: string, index: map<string, nat>,
                          inserts: seq<Row>)
    requires OnePerAddress(before, user) && Grown(before, after, user, inserts) && IsIndex(before, user, index)
    requires forall j :: 0 <= j < |inserts| ==> !Blank(inserts[j]) && Lower(Address(inserts[j])) !in index
    ensures OnePerAddress(after, user) <==> DistinctKeys(inserts)
  {
    hide Lower, Strip, Grown, LivesAt;
    assert |after| == |before| + |inserts| by { GrownSize(before, after, user, inserts); }
    forall key, i: nat ensures LivesAt(after, user, key, i) <==>
                          LivesAt(before, user, key, i) ||
                          (|before| <= i < |after| && Lower(Address(inserts[i - |before|])) == key) {
      GrownPlaces(before, after, user, inserts, key, i);
    }
    if DistinctKeys(inserts) {
      forall key, i: nat, j: nat | key != "" && LivesAt(after, user, key, i) && LivesAt(after, user, key, j)
        ensures i == j
      {
        LivesInside(before, user, key, i);
        LivesInside(before, user, key, j);
        if i >= |before| && j >= |before| {
          InOrder(inserts, i - |before|, j - |before|);
        }
      }
    } else {
      var i, j :| 0 <= i < j < |inserts| && Lower(Address(inserts[i])) == Lower(Address(inserts[j]));
      var key := Lower(Address(inserts[i]));
      assert LivesAt(after, user, key, |before| + i) && LivesAt(after, user, key, |before| + j);
      LowerNotEmpty(Address(inserts[i]));
    }
  }

  lemma LivesInside(holdings: seq<Holding>, user: string, key: string, i: nat)
    ensures LivesAt(holdings, user, key, i) ==> i < |holdings|
  {
  }

  lemma LowerNotEmpty(s: string)
    ensures Lower(s) == "" <==> s == ""
  {
  }

  lemma GrownSize(before: seq<Holding>, after: seq<Holding>, user: string, inserts: seq<Row>)
    requires Grown(before, after, user, inserts)
    ensures |after| == |before| + |inserts|
  {
  }

  lemma InOrder(rows: seq<Row>, i: nat, j: nat)
    requires DistinctKeys(rows) && i < |rows| && j < |rows| && Lower(Address(rows[i])) == Lower(Address(rows[j]))
    ensures i == j
  {
    hide Lower, Strip;
  }

  // ---------------------------------------------------------------------------
  // Importing twice
  // ---------------------------------------------------------------------------

  /** Position i has already taken in everything a row says. */
  ghost predicate Absorbed(t: Tables, i: nat, row: Row) {
    && i < |t.holdings| && Coercible(row)
    && Updated(t.holdings[i], row) == t.holdings[i]
    && (row.financials == None || (i in t.financials && t.financials[i] + row.financials.value == t.financials[i]))
  }

  /** A holding under the row's address has absorbed the row: the indexed one, if there was one. */
  ghost predicate Settled(t: Tables, user: string, index: map<string, nat>, row: Row) {
    exists i: nat :: SettledAt(t, user, index, row, i)
  }

  ghost predicate SettledAt(t: Tables, user: string, index: map<string, nat>, row: Row, i: nat) {
    && LivesAt(t.holdings, user, Lower(Address(row)), i) && Absorbed(t, i, row)
    && (Lower(Address(row)) in index ==> i == index[Lower(Address(row))])
  }

  lemma MergeTwice(f: FinancialsRow, data: FinancialsRow)
    ensures (f + data) + data == f + data
  {
  }

  lemma UpdateTwice(h: Holding, row: Row)
    requires Coercible(row)
    ensures Updated(Updated(h, row), row) == Updated(h, row)
  {
  }

  lemma CreateThenUpdate(owner: string, portfolioId: string, row: Row)
    requires Coercible(row)
    ensures Updated(Created(owner, portfolioId, row), row) == Created(owner, portfolioId, row)
  {
  }

  /** Where a row goes: its match, or the end of the table. */
  function Spot(p: Progress, index: map<string, nat>, row: Row): nat {
    var key := Lower(Address(row));
    if key in index && index[key] < |p.tables.holdings| then index[key] else |p.tables.holdings|
  }

  lemma StepSettles(p: Progress, index: map<string, nat>, user: string, portfolioId: string, row: Row)
    requires !Blank(row) && Coercible(row) && AtHome(p, index, user, row)
    ensures Settled(Step(p, index, user, portfolioId, row).value.tables, user, index, row)
  {
    hide Strip, Lower, ZipFor, CoerceAssetClass, CoerceStatus;
    var i, t := Spot(p, index, row), Step(p, index, user, portfolioId, row).value.tables;
    if i < |p.tables.holdings| {
      UpdateTwice(p.tables.holdings[i], row);
    } else {
      CreateThenUpdate(user, portfolioId, row);
      NormOfStored(row);
    }
    if row.financials.Some? {
      MergeTwice(if i in p.tables.financials then p.tables.financials[i] else DEFAULTS, row.financials.value);
    }
    assert SettledAt(t, user, index, row, i);
  }

  /** The row's spot is its indexed holding, which lives under its address, or the end of the table. */
  ghost predicate AtHome(p: Progress, index: map<string, nat>, user: string, row: Row) {
    var i, key := Spot(p, index, row), Lower(Address(row));
    && (i < |p.tables.holdings| ==> LivesAt(p.tables.holdings, user, key, i))
    && (key in index ==> index[key] < |p.tables.holdings|)
  }

  lemma StepKeepsSettled(p: Progress, index: map<string, nat>, user: string, portfolioId: string, row: Row, other: Row)
    requires !Blank(row) && Coercible(row) && Lower(Address(other)) != Lower(Address(row))
    requires AtHome(p, index, user, row)
    requires Settled(p.tables, user, index, other)
    ensures Settled(Step(p, index, user, portfolioId, row).value.tables, user, index, other)
  {
    hide Strip, Lower, Norm, ZipFor, CoerceAssetClass, CoerceStatus, Updated, Created;
    var j: nat :| SettledAt(p.tables, user, index, other, j);
    var i, t := Spot(p, index, row), Step(p, index, user, portfolioId, row).value.tables;
    assert i != j;
    assert t.holdings[j] == p.tables.holdings[j];
    assert SettledAt(t, user, index, other, j);
  }

  lemma RowAtHome(t: Tables, index: map<string, nat>, user: string, portfolioId: string, rows: seq<Row>, row: Row)
    requires IsIndex(t.holdings, user, index) && Applied(t, index, user, portfolioId, rows).Ok?
    ensures AtHome(Applied(t, index, user, portfolioId, rows).value, index, user, row)
    ensures |t.holdings| <= |Applied(t, index, user, portfolioId, rows).value.tables.holdings|
  {
    hide Strip, Lower, Norm, Step;
    ImportGrows(t, index, user, portfolioId, rows);
  }

  /** The non-blank rows of a payload have pairwise distinct addresses. */
  ghost predicate DistinctAddresses(rows: seq<Row>) {
    forall i, j :: 0 <= i < j < |rows| && !Blank(rows[i]) && !Blank(rows[j]) ==>
      Lower(Address(rows[i])) != Lower(Address(rows[j]))
  }

  /** After an import of distinct addresses every row of the payload has settled. */
  lemma {:induction false} ImportSettles(t: Tables, index: map<string, nat>, user: string, portfolioId: string,
                                         rows: seq<Row>)
    requires IsIndex(t.holdings, user, index)
    requires DistinctAddresses(rows) && Applied(t, index, user, portfolioId, rows).Ok?
    ensures var p := Applied(t, index, user, portfolioId, rows).value;
            forall k :: 0 <= k < |rows| && !Blank(rows[k]) ==> Settled(p.tables, user, index, rows[k])
  {
    hide Strip, Lower, Step, Settled, Coercible, IsIndex, AtHome;
    if rows != [] {
      var n := |rows| - 1;
      var front := rows[..n];
      var p := Applied(t, index, user, portfolioId, front).value;
      ImportSettles(t, index, user, portfolioId, front);
      RowAtHome(t, index, user, portfolioId, front, rows[n]);
      StepOkMeans(p, index, user, portfolioId, rows[n]);
      forall k | 0 <= k < |rows| && !Blank(rows[k])
        ensures Settled(Step(p, index, user, portfolioId, rows[n]).value.tables, user, index, rows[k])
      {
        if k < n { assert rows[k] == front[k]; }
        if !Blank(rows[n]) {
          if k == n {
            StepSettles(p, index, user, portfolioId, rows[n]);
          } else {
            StepKeepsSettled(p, index, user, portfolioId, rows[n], rows[k]);
          }
        }
      }
    }
  }

  lemma StepOkMeans(p: Progress, index: map<string, nat>, user: string, portfolioId: string, row: Row)
    requires Step(p, index, user, portfolioId, row).Ok?
    ensures Blank(row) || Coercible(row)
    ensures Blank(row) ==> Step(p, index, user, portfolioId, row).value.tables == p.tables
  {
  }

  // ---------------------------------------------------------------------------
  // What an import does to one position
  // ---------------------------------------------------------------------------

  /** Row k of the payload goes to position j. */
  predicate Hits(rows: seq<Row>, index: map<string, nat>, k: int, j: nat) {
    0 <= k < |rows| && !Blank(rows[k]) && Lower(Address(rows[k])) in index && index[Lower(Address(rows[k]))] == j
  }

  function FinAt(t: Tables, j: nat): Option<FinancialsRow> {
    if j in t.financials then Some(t.financials[j]) else None
  }

  /** after is before with a row written to position j, as far as position j goes. */
  ghost predicate Took(before: Tables, after: Tables, j: nat, row: Row)
    requires j < |before.holdings|
  {
    && j < |after.holdings| && Coercible(row) && after.holdings[j] == Updated(before.holdings[j], row)
    && FinAt(after, j) == FinAt(before.(financials := WithFinancials(before.financials, j, row)), j)
  }

  ghost predicate Same(before: Tables, after: Tables, j: nat)
    requires j < |before.holdings|
  {
    j < |after.holdings| && after.holdings[j] == before.holdings[j] && FinAt(after, j) == FinAt(before, j)
  }

  /** A position takes the one row that goes to it, or stays what it was. */
  lemma {:induction false} PositionEffect(t: Tables, index: map<string, nat>, user: string, portfolioId: string,
                                          rows: seq<Row>, j: nat)
    requires IsIndex(t.holdings, user, index) && j < |t.holdings|
    requires DistinctAddresses(rows) && Applied(t, index, user, portfolioId, rows).Ok?
    ensures var after := Applied(t, index, user, portfolioId, rows).value.tables;
            && (forall k :: Hits(rows, index, k, j) ==> Took(t, after, j, rows[k]))
            && ((forall k :: !Hits(rows, index, k, j)) ==> Same(t, after, j))
  {
    hide Strip, Lower, Step, Coercible, IsIndex, AtHome, Took, Same, Hits;
    if rows == [] {
      SameSelf(t, j);
      NoHits(rows, index, j);
    } else {
      var n := |rows| - 1;
      var front := rows[..n];
      var p := Applied(t, index, user, portfolioId, front).value;
      PositionEffect(t, index, user, portfolioId, front, j);
      HitsStep(rows, index, j);
      OnlyOneHits(t.holdings, user, rows, index, j);
      RowAtHome(t, index, user, portfolioId, front, rows[n]);
      StepOkMeans(p, index, user, portfolioId, rows[n]);
      StepAt(t, p, index, user, portfolioId, rows, j);
      if Hits(rows, index, n, j) {
        assert forall k :: !Hits(front, index, k, j);
      } else {
        assert forall k :: Hits(rows, index, k, j) <==> Hits(front, index, k, j);
      }
    }
  }

  lemma SameSelf(t: Tables, j: nat)
    requires j < |t.holdings|
    ensures Same(t, t, j)
  {
  }

  lemma NoHits(rows: seq<Row>, index: map<string, nat>, j: nat)
    requires rows == []
    ensures forall k :: !Hits(rows, index, k, j)
  {
  }

  lemma HitsStep(rows: seq<Row>, index: map<string, nat>, j: nat)
    requires rows != []
    ensures var n := |rows| - 1;
            && (forall k :: Hits(rows, index, k, j) <==>
                  Hits(rows[..n], index, k, j) || (k == n && Hits(rows, index, n, j)))
            && (forall k :: Hits(rows[..n], index, k, j) ==> 0 <= k < n && rows[..n][k] == rows[k])
  {
    hide Lower, Strip;
  }

  lemma OnlyOneHits(holdings: seq<Holding>, user: string, rows: seq<Row>, index: map<string, nat>, j: nat)
    requires IsIndex(holdings, user, index) && DistinctAddresses(rows)
    ensures forall k, m :: Hits(rows, index, k, j) && Hits(rows, index, m, j) ==> k == m
  {
    hide Lower, Strip, Norm;
    forall k, m | Hits(rows, index, k, j) && Hits(rows, index, m, j) ensures k == m {
      assert LivesAt(holdings, user, Lower(Address(rows[k])), j) && LivesAt(holdings, user, Lower(Address(rows[m])), j);
    }
  }

  /** The last row either goes to j, which no earlier row touched, or leaves j alone. */
  lemma StepAt(t: Tables, p: Progress, index: map<string, nat>, user: string, portfolioId: string, rows: seq<Row>,
               j: nat)
    requires rows != [] && j < |t.holdings| && j < |p.tables.holdings|
    requires var last := rows[|rows| - 1];
             AtHome(p, index, user, last) && Step(p, index, user, portfolioId, last).Ok? &&
             (Blank(last) || Coercible(last))
    ensures var n := |rows| - 1;
            var after := Step(p, index, user, portfolioId, rows[n]).value.tables;
            && (Hits(rows, index, n, j) && Same(t, p.tables, j) ==> Took(t, after, j, rows[n]))
            && (!Hits(rows, index, n, j) ==> Same(p.tables, after, j))
            && (!Hits(rows, index, n, j) && Same(t, p.tables, j) ==> Same(t, after, j))
            && (forall row :: !Hits(rows, index, n, j) && Took(t, p.tables, j, row) ==> Took(t, after, j, row))
  {
    hide Strip, Lower, Norm, ZipFor, CoerceAssetClass, CoerceStatus, Updated, Created;
  }

  // ---------------------------------------------------------------------------
  // The second import
  // ---------------------------------------------------------------------------

  function CountBlank(rows: seq<Row>): nat {
    if rows == [] then 0 else CountBlank(rows[..|rows| - 1]) + (if Blank(rows[|rows| - 1]) then 1 else 0)
  }

  lemma {:induction false} CountBlankBound(rows: seq<Row>)
    ensures CountBlank(rows) <= |rows|
  {
    if rows != [] { CountBlankBound(rows[..|rows| - 1]); }
  }

  /** Every row that is not blank finds an indexed holding that has absorbed it. */
  ghost predicate AllAbsorbed(t: Tables, index: map<string, nat>, rows: seq<Row>) {
    forall k :: 0 <= k < |rows| && !Blank(rows[k]) ==> RowAbsorbed(t, index, rows[k])
  }

  ghost predicate RowAbsorbed(t: Tables, index: map<string, nat>, row: Row) {
    Lower(Address(row)) in index && Absorbed(t, index[Lower(Address(row))], row)
  }

  /** On a table that has absorbed every row an import only counts. */
  lemma {:induction false} SettledImportChangesNothing(t: Tables, index: map<string, nat>, user: string,
                                                       portfolioId: string, rows: seq<Row>)
    requires AllAbsorbed(t, index, rows)
    ensures CountBlank(rows) <= |rows|
    ensures Applied(t, index, user, portfolioId, rows)
         == Ok(Progress(t, 0, |rows| - CountBlank(rows), CountBlank(rows)))
  {
    hide Strip, Lower, Step, RowAbsorbed;
    CountBlankBound(rows);
    if rows != [] {
      var n := |rows| - 1;
      CountBlankBound(rows[..n]);
      forall k | 0 <= k < n && !Blank(rows[..n][k]) ensures RowAbsorbed(t, index, rows[..n][k]) {
        assert rows[..n][k] == rows[k];
      }
      SettledImportChangesNothing(t, index, user, portfolioId, rows[..n]);
      var p := Progress(t, 0, n - CountBlank(rows[..n]), CountBlank(rows[..n]));
      SettledStep(t, p, index, user, portfolioId, rows[n]);
    }
  }

  lemma SettledStep(t: Tables, p: Progress, index: map<string, nat>, user: string, portfolioId: string, row: Row)
    requires p.tables == t && (!Blank(row) ==> RowAbsorbed(t, index, row))
    ensures Step(p, index, user, portfolioId, row)
         == Ok(if Blank(row) then p.(skipped := p.skipped + 1) else p.(updated := p.updated + 1))
  {
    hide Strip, Norm, Lower, Updated, ZipFor, CoerceAssetClass, CoerceStatus;
    if !Blank(row) {
      var i := index[Lower(Address(row))];
      assert t.holdings[i := t.holdings[i]] == t.holdings;
      assert WithFinancials(t.financials, i, row) == t.financials;
    }
  }

  lemma TookNothing(t: Tables, j: nat, row: Row)
    requires j < |t.holdings| && Took(t, t, j, row)
    ensures Absorbed(t, j, row)
  {
    hide Updated, Coercible;
    if row.financials.Some? {
      assert j in WithFinancials(t.financials, j, row);
    }
  }

  lemma AbsorbedSame(t: Tables, after: Tables, j: nat, row: Row)
    requires j < |t.holdings| && Same(t, after, j)
    ensures Absorbed(t, j, row) <==> Absorbed(after, j, row)
  {
    hide Updated, Coercible;
    assert FinAt(t, j) == FinAt(after, j);
  }

  /** The import inserts nothing and leaves holdings and financials exactly as they are. */
  ghost predicate NoOp(t: Tables, order: seq<nat>, user: string, portfolioId: string, rows: seq<Row>)
    requires forall k :: 0 <= k < |order| ==> order[k] < |t.holdings|
  {
    Untouched(Imported(t, order, user, portfolioId, rows), t)
  }

  ghost predicate Untouched(r: Result<Progress, ImportError>, t: Tables) {
    r.Ok? && r.value.tables == t && r.value.inserted == 0
  }

  /** An import whose addresses are all known changes nothing exactly when all its rows are absorbed. */
  lemma {:induction false} NoOpIffAbsorbed(t: Tables, index: map<string, nat>, user: string, portfolioId: string,
                                           rows: seq<Row>)
    requires IsIndex(t.holdings, user, index) && DistinctAddresses(rows)
    requires forall k :: 0 <= k < |rows| && !Blank(rows[k]) ==> Lower(Address(rows[k])) in index
    ensures var r := Applied(t, index, user, portfolioId, rows);
            Untouched(r, t) <==> AllAbsorbed(t, index, rows)
  {
    hide Strip, Lower, Step, Absorbed, Took, Same, DistinctAddresses, Norm;
    var r := Applied(t, index, user, portfolioId, rows);
    if AllAbsorbed(t, index, rows) {
      SettledImportChangesNothing(t, index, user, portfolioId, rows);
    } else if r.Ok? && r.value.tables == t {
      forall k | 0 <= k < |rows| && !Blank(rows[k]) ensures RowAbsorbed(t, index, rows[k]) {
        var j := index[Lower(Address(rows[k]))];
        assert LivesAt(t.holdings, user, Lower(Address(rows[k])), j);
        PositionEffect(t, index, user, portfolioId, rows, j);
        assert Hits(rows, index, k, j);
        TookNothing(t, j, rows[k]);
      }
    }
  }

  /** Wherever a row's address has a second holding, that one has absorbed the row already. */
  ghost predicate DuplicatesAbsorbed(t: Tables, user: string, index: map<string, nat>, rows: seq<Row>) {
    forall k, i: nat :: DuplicateOf(t, user, index, rows, k, i) ==> Absorbed(t, i, rows[k])
  }

  /** Holding i lives under the address of row k, and is not the indexed one. */
  ghost predicate DuplicateOf(t: Tables, user: string, index: map<string, nat>, rows: seq<Row>, k: int, i: nat) {
    && 0 <= k < |rows| && !Blank(rows[k]) && LivesAt(t.holdings, user, Lower(Address(rows[k])), i)
    && Lower(Address(rows[k])) in index && i != index[Lower(Address(rows[k]))]
  }

  /** No row of the payload goes to a duplicate. */
  lemma DuplicateUntouched(t: Tables, index: map<string, nat>, user: string, portfolioId: string, rows: seq<Row>,
                           k: int, i: nat)
    requires IsIndex(t.holdings, user, index) && DistinctAddresses(rows) && DuplicateOf(t, user, index, rows, k, i)
    requires Applied(t, index, user, portfolioId, rows).Ok?
    ensures i < |t.holdings| && Same(t, Applied(t, index, user, portfolioId, rows).value.tables, i)
  {
    forall m ensures !Hits(rows, index, m, i) {
      DuplicateNotHit(t, index, user, rows, k, i, m);
    }
    hide Applied, Same, Hits, Took;
    PositionEffect(t, index, user, portfolioId, rows, i);
  }

  lemma DuplicateNotHit(t: Tables, index: map<string, nat>, user: string, rows: seq<Row>, k: int, i: nat, m: int)
    requires IsIndex(t.holdings, user, index) && DistinctAddresses(rows) && DuplicateOf(t, user, index, rows, k, i)
    ensures i < |t.holdings| && !Hits(rows, index, m, i)
  {
    hide Strip, Lower, Norm;
    if 0 <= m < |rows| && Lower(Address(rows[m])) in index {
      IndexLeads(t.holdings, user, index, Lower(Address(rows[m])));
      OneKeyEach(t.holdings, user, Lower(Address(rows[m])), Lower(Address(rows[k])), i);
    }
  }

  lemma OneKeyEach(holdings: seq<Holding>, user: string, a: string, b: string, i: nat)
    ensures LivesAt(holdings, user, a, i) && LivesAt(holdings, user, b, i) ==> a == b
  {
  }

  /** Where a row's address leads after the import: its settled holding or a duplicate from before. */
  lemma LivingAfter(t: Tables, index: map<string, nat>, user: string, portfolioId: string, rows: seq<Row>, k: int,
                    j: nat)
    requires IsIndex(t.holdings, user, index) && DistinctAddresses(rows)
    requires Applied(t, index, user, portfolioId, rows).Ok? && 0 <= k < |rows| && !Blank(rows[k])
    requires LivesAt(Applied(t, index, user, portfolioId, rows).value.tables.holdings, user, Lower(Address(rows[k])), j)
    ensures SettledAt(Applied(t, index, user, portfolioId, rows).value.tables, user, index, rows[k], j)
         || DuplicateOf(t, user, index, rows, k, j)
  {
    hide Strip, Lower, Norm, Applied, Absorbed, Inserts, Blank, Grown, IsIndex, DistinctAddresses;
    var once, key := Applied(t, index, user, portfolioId, rows).value.tables, Lower(Address(rows[k]));
    var inserts := Inserts(rows, index);
    ImportGrows(t, index, user, portfolioId, rows);
    GrownSize(t.holdings, once.holdings, user, inserts);
    InsertsAreNew(rows, index);
    DistinctInserts(rows, index);
    ImportSettles(t, index, user, portfolioId, rows);
    var i: nat :| SettledAt(once, user, index, rows[k], i);
    GrownPlaces(t.holdings, once.holdings, user, inserts, key, i);
    GrownPlaces(t.holdings, once.holdings, user, inserts, key, j);
    SpotsMeet(t, once, index, user, inserts, key, i, j);
  }

  lemma SpotsMeet(t: Tables, once: Tables, index: map<string, nat>, user: string, inserts: seq<Row>, key: string,
                  i: nat, j: nat)
    requires IsIndex(t.holdings, user, index) && DistinctKeys(inserts) && |once.holdings| == |t.holdings| + |inserts|
    requires forall m :: 0 <= m < |inserts| ==> Lower(Address(inserts[m])) !in index
    requires key in index ==> i == index[key]
    requires LivesAt(t.holdings, user, key, i)
          || (|t.holdings| <= i < |once.holdings| && Lower(Address(inserts[i - |t.holdings|])) == key)
    requires LivesAt(t.holdings, user, key, j)
          || (|t.holdings| <= j < |once.holdings| && Lower(Address(inserts[j - |t.holdings|])) == key)
    ensures i == j || (LivesAt(t.holdings, user, key, j) && key in index && j != index[key])
  {
    hide Strip, Lower, LivesAt;
    if key !in index {
      InOrder(inserts, i - |t.holdings|, j - |t.holdings|);
    }
  }

  /** An order of n positions that ends with j. */
  function EndingWith(n: nat, j: nat): seq<nat>
    requires j < n
  {
    seq(n, i requires 0 <= i < n => if i == n - 1 then j else if i < j then i else i + 1)
  }

  lemma EndsThere(holdings: seq<Holding>, user: string, key: string, j: nat)
    requires LivesAt(holdings, user, key, j)
    ensures var order := EndingWith(|holdings|, j);
            IsOrder(order, |holdings|) &&
            key in ByAddress(holdings, user, order) && ByAddress(holdings, user, order)[key] == j
  {
    hide Norm;
    var n := |holdings|;
    var order := EndingWith(n, j);
    forall i | 0 <= i < n ensures i in order {
      assert order[if i == j then n - 1 else if i < j then i else i - 1] == i;
    }
  }

  lemma PlaceKept(t: Tables, index: map<string, nat>, user: string, portfolioId: string, rows: seq<Row>, key: string,
                  i: nat)
    requires IsIndex(t.holdings, user, index) && Applied(t, index, user, portfolioId, rows).Ok?
    requires LivesAt(t.holdings, user, key, i)
    ensures LivesAt(Applied(t, index, user, portfolioId, rows).value.tables.holdings, user, key, i)
  {
    ImportGrows(t, index, user, portfolioId, rows);
    InsertsAreNew(rows, index);
    var after := Applied(t, index, user, portfolioId, rows).value.tables.holdings;
    GrownPlaces(t.holdings, after, user, Inserts(rows, index), key, i);
  }

  /** After the import every address of the payload is known to any index. */
  lemma AddressesKnown(t: Tables, index: map<string, nat>, user: string, portfolioId: string, rows: seq<Row>,
                       again: map<string, nat>)
    requires IsIndex(t.holdings, user, index) && DistinctAddresses(rows)
    requires Applied(t, index, user, portfolioId, rows).Ok?
    requires IsIndex(Applied(t, index, user, portfolioId, rows).value.tables.holdings, user, again)
    ensures forall k :: 0 <= k < |rows| && !Blank(rows[k]) ==> Lower(Address(rows[k])) in again
  {
    hide Strip, Lower, Norm, Absorbed, Applied;
    ImportSettles(t, index, user, portfolioId, rows);
    forall k | 0 <= k < |rows| && !Blank(rows[k]) ensures Lower(Address(rows[k])) in again {
      var i: nat :| SettledAt(Applied(t, index, user, portfolioId, rows).value.tables, user, index, rows[k], i);
    }
  }

  /** Where both indexes know a key they lead to the same holding. */
  ghost predicate Extends(again: map<string, nat>, index: map<string, nat>) {
    forall key :: key in index && key in again ==> again[key] == index[key]
  }

  /** One index of the second import: it changes nothing exactly when it leads to absorbed holdings. */
  lemma SecondByIndex(t: Tables, index: map<string, nat>, user: string, portfolioId: string, portfolioId': string,
                      rows: seq<Row>, again: map<string, nat>)
    requires IsIndex(t.holdings, user, index) && DistinctAddresses(rows)
    requires Applied(t, index, user, portfolioId, rows).Ok?
    requires IsIndex(Applied(t, index, user, portfolioId, rows).value.tables.holdings, user, again)
    ensures var once := Applied(t, index, user, portfolioId, rows).value.tables;
            var r := Applied(once, again, user, portfolioId', rows);
            && (Untouched(r, once) <==> AllAbsorbed(once, again, rows))
            && (DuplicatesAbsorbed(t, user, index, rows) ==> AllAbsorbed(once, again, rows))
            && (Extends(again, index) ==> AllAbsorbed(once, again, rows))
  {
    hide Strip, Lower, Norm, Absorbed, Applied, DistinctAddresses, IsIndex;
    var once := Applied(t, index, user, portfolioId, rows).value.tables;
    AddressesKnown(t, index, user, portfolioId, rows, again);
    NoOpIffAbsorbed(once, again, user, portfolioId', rows);
    forall k | 0 <= k < |rows| && !Blank(rows[k])
      ensures RowAbsorbed(once, again, rows[k]) || DuplicateOf(t, user, index, rows, k, again[Lower(Address(rows[k]))])
      ensures (DuplicateOf(t, user, index, rows, k, again[Lower(Address(rows[k]))])
               && Absorbed(t, again[Lower(Address(rows[k]))], rows[k])) ==> RowAbsorbed(once, again, rows[k])
    {
      var j := again[Lower(Address(rows[k]))];
      IndexLeads(once.holdings, user, again, Lower(Address(rows[k])));
      LivingAfter(t, index, user, portfolioId, rows, k, j);
      if DuplicateOf(t, user, index, rows, k, j) {
        DuplicateUntouched(t, index, user, portfolioId, rows, k, j);
        AbsorbedSame(t, once, j, rows[k]);
      }
    }
  }

  lemma IndexLeads(holdings: seq<Holding>, user: string, index: map<string, nat>, key: string)
    requires IsIndex(holdings, user, index) && key in index
    ensures LivesAt(holdings, user, key, index[key])
  {
  }

  /**
   Importing a payload of distinct addresses a second time inserts nothing and leaves holdings and
   financials exactly as they are, in whatever order the database then answers, exactly when every
   duplicate holding under one of the addresses had absorbed its row before.
   */
  lemma {:induction false} SecondImportIsNoOpIff(t: Tables, order: seq<nat>, user: string, portfolioId: string,
                                                 portfolioId': string, rows: seq<Row>)
    requires IsOrder(order, |t.holdings|) && DistinctAddresses(rows)
    requires Imported(t, order, user, portfolioId, rows).Ok?
    ensures var once := Imported(t, order, user, portfolioId, rows).value.tables;
            (forall later :: IsOrder(later, |once.holdings|) ==> NoOp(once, later, user, portfolioId', rows)) <==>
            DuplicatesAbsorbed(t, user, ByAddress(t.holdings, user, order), rows)
  {
    var index, once := ByAddress(t.holdings, user, order), Imported(t, order, user, portfolioId, rows).value.tables;
    EveryOrderIndexes(t.holdings, user, order);
    hide ByAddress, IsOrder, IsIndex, Applied, DistinctAddresses, AllAbsorbed, Absorbed, Strip, Lower;
    if DuplicatesAbsorbed(t, user, index, rows) {
      forall later | IsOrder(later, |once.holdings|) ensures NoOp(once, later, user, portfolioId', rows) {
        EveryOrderIndexes(once.holdings, user, later);
        SecondByIndex(t, index, user, portfolioId, portfolioId', rows, ByAddress(once.holdings, user, later));
        OrderInside(later, |once.holdings|);
      }
    } else {
      var k, i: nat :| DuplicateOf(t, user, index, rows, k, i) && !Absorbed(t, i, rows[k]);
      var key := Lower(Address(rows[k]));
      PlaceKept(t, index, user, portfolioId, rows, key, i);
      LivesInside(once.holdings, user, key, i);
      EndsThere(once.holdings, user, key, i);
      var later := EndingWith(|once.holdings|, i);
      EveryOrderIndexes(once.holdings, user, later);
      SecondByIndex(t, index, user, portfolioId, portfolioId', rows, ByAddress(once.holdings, user, later));
      DuplicateUntouched(t, index, user, portfolioId, rows, k, i);
      AbsorbedSame(t, once, i, rows[k]);
      OneNotAbsorbed(once, ByAddress(once.holdings, user, later), rows, k);
      OrderInside(later, |once.holdings|);
      assert !NoOp(once, later, user, portfolioId', rows);
    }
  }

  lemma OrderInside(order: seq<nat>, n: nat)
    requires IsOrder(order, n)
    ensures forall k :: 0 <= k < |order| ==> order[k] < n
  {
  }

  lemma OneNotAbsorbed(t: Tables, index: map<string, nat>, rows: seq<Row>, k: int)
    requires 0 <= k < |rows| && !Blank(rows[k]) && Lower(Address(rows[k])) in index
    requires !Absorbed(t, index[Lower(Address(rows[k]))], rows[k])
    ensures !AllAbsorbed(t, index, rows)
  {
    assert !RowAbsorbed(t, index, rows[k]);
  }

  /** On a table with one holding per address the second import never changes anything. */
  lemma {:induction false} SecondImportIsNoOp(t: Tables, order: seq<nat>, user: string, portfolioId: string,
                                              portfolioId': string, rows: seq<Row>, later: seq<nat>)
    requires IsOrder(order, |t.holdings|) && OnePerAddress(t.holdings, user) && DistinctAddresses(rows)
    requires Imported(t, order, user, portfolioId, rows).Ok?
    requires IsOrder(later, |Imported(t, order, user, portfolioId, rows).value.tables.holdings|)
    ensures NoOp(Imported(t, order, user, portfolioId, rows).value.tables, later, user, portfolioId', rows)
  {
    EveryOrderIndexes(t.holdings, user, order);
    var index := ByAddress(t.holdings, user, order);
    forall k, i: nat {
      NoDuplicate(t, user, index, rows, k, i);
    }
    hide ByAddress, IsOrder, Imported, DistinctAddresses, Absorbed, NoOp;
    SecondImportIsNoOpIff(t, order, user, portfolioId, portfolioId', rows);
  }

  lemma NoDuplicate(t: Tables, user: string, index: map<string, nat>, rows: seq<Row>, k: int, i: nat)
    requires IsIndex(t.holdings, user, index) && OnePerAddress(t.holdings, user)
    ensures !DuplicateOf(t, user, index, rows, k, i)
  {
    hide Strip, Norm;
    if 0 <= k < |rows| && !Blank(rows[k]) {
      LowerNotEmpty(Address(rows[k]));
    }
    hide Lower;
  }

  /** The positions from a up to b. */
  function Upwards(a: nat, b: nat): seq<nat>
    requires a <= b
  {
    seq(b - a, i requires 0 <= i < b - a => a + i)
  }

  /**
   If the second answer lists the old holdings as the first one did and the new ones behind them,
   the second import changes nothing on any table, duplicates or not.
   */
  lemma {:induction false} SameOrderIsNoOp(t: Tables, order: seq<nat>, user: string, portfolioId: string,
                                           portfolioId': string, rows: seq<Row>)
    requires IsOrder(order, |t.holdings|) && DistinctAddresses(rows)
    requires Imported(t, order, user, portfolioId, rows).Ok?
    ensures var once := Imported(t, order, user, portfolioId, rows).value.tables;
            && |t.holdings| <= |once.holdings|
            && IsOrder(order + Upwards(|t.holdings|, |once.holdings|), |once.holdings|)
            && NoOp(once, order + Upwards(|t.holdings|, |once.holdings|), user, portfolioId', rows)
  {
    var index, once := ByAddress(t.holdings, user, order), Imported(t, order, user, portfolioId, rows).value.tables;
    EveryOrderIndexes(t.holdings, user, order);
    ImportGrows(t, index, user, portfolioId, rows);
    GrownSize(t.holdings, once.holdings, user, Inserts(rows, index));
    var later := order + Upwards(|t.holdings|, |once.holdings|);
    LongerOrder(order, |t.holdings|, |once.holdings|);
    OrderInside(order, |t.holdings|);
    OrderInside(later, |once.holdings|);
    EveryOrderIndexes(once.holdings, user, later);
    var again := ByAddress(once.holdings, user, later);
    InsertsAreNew(rows, index);
    hide IsOrder, Applied, DistinctAddresses, AllAbsorbed, Strip, Lower, Norm;
    forall key | key in index ensures key in again && again[key] == index[key] {
      SameIndexed(t.holdings, once.holdings, user, order, Inserts(rows, index), key, |once.holdings|);
    }
    hide ByAddress, IsIndex, Grown;
    SecondByIndex(t, index, user, portfolioId, portfolioId', rows, again);
  }

  lemma LongerOrder(order: seq<nat>, n: nat, m: nat)
    requires IsOrder(order, n) && n <= m
    ensures IsOrder(order + Upwards(n, m), m)
  {
    var later, more := order + Upwards(n, m), Upwards(n, m);
    forall i | 0 <= i < m - n ensures more[i] == n + i {
    }
    hide Upwards;
    forall i | 0 <= i < m ensures later[i] < m && i in later {
      if i < n {
        assert i in order;
      } else {
        assert later[i] == more[i - n] == i;
      }
    }
  }

  /** Behind the old holdings come only keys that the old index did not have. */
  lemma {:induction false} SameIndexed(before: seq<Holding>, after: seq<Holding>, user: string, order: seq<nat>,
                                       inserts: seq<Row>, key: string, n: nat)
    requires Grown(before, after, user, inserts) && |before| <= n <= |after|
    requires forall k :: 0 <= k < |order| ==> order[k] < |before|
    requires key in ByAddress(before, user, order)
    requires forall m :: 0 <= m < |inserts| ==> !Blank(inserts[m]) && Lower(Address(inserts[m])) != key
    ensures key in ByAddress(after, user, order + Upwards(|before|, n))
    ensures ByAddress(after, user, order + Upwards(|before|, n))[key] == ByAddress(before, user, order)[key]
    decreases n
  {
    hide Norm, Lower, Strip, Grown, ByAddress;
    if n == |before| {
      assert order + Upwards(|before|, n) == order;
      SamePlacesIndex(before, after, user, order, inserts);
    } else {
      SameIndexed(before, after, user, order, inserts, key, n - 1);
      var earlier := order + Upwards(|before|, n - 1);
      assert order + Upwards(|before|, n) == earlier + [n - 1];
      OneMoreIndexed(after, user, earlier, n - 1);
      GrownSize(before, after, user, inserts);
      InsertedPlace(before, after, user, inserts, n - 1);
    }
  }

  lemma InsertedPlace(before: seq<Holding>, after: seq<Holding>, user: string, inserts: seq<Row>, i: nat)
    requires Grown(before, after, user, inserts) && |before| <= i < |after|
    ensures after[i].owner == user && Norm(after[i].address) == Lower(Address(inserts[i - |before|]))
  {
    NormOfStored(inserts[i - |before|]);
  }

  lemma OneMoreIndexed(holdings: seq<Holding>, user: string, order: seq<nat>, i: nat)
    requires i < |holdings| && forall k :: 0 <= k < |order| ==> order[k] < |holdings|
    ensures ByAddress(holdings, user, order + [i]) ==
            if holdings[i].owner == user && holdings[i].address != ""
            then ByAddress(holdings, user, order)[Norm(holdings[i].address) := i] else ByAddress(holdings, user, order)
  {
    hide Norm;
    assert (order + [i])[..|order|] == order;
  }

  lemma {:induction false} SamePlacesIndex(before: seq<Holding>, after: seq<Holding>, user: string, order: seq<nat>,
                                           inserts: seq<Row>)
    requires Grown(before, after, user, inserts)
    requires forall k :: 0 <= k < |order| ==> order[k] < |before|
    ensures ByAddress(after, user, order) == ByAddress(before, user, order)
  {
    hide Norm;
    if order != [] {
      var i := order[|order| - 1];
      SamePlacesIndex(before, after, user, order[..|order| - 1], inserts);
      assert SamePlace(before[i], after[i]);
    }
  }

  lemma {:induction false} DistinctInserts(rows: seq<Row>, index: map<string, nat>)
    requires DistinctAddresses(rows)
    ensures DistinctKeys(Inserts(rows, index))
    ensures forall j :: 0 <= j < |Inserts(rows, index)| ==> Inserts(rows, index)[j] in rows
  {
    hide Strip, Lower;
    if rows != [] {
      var n := |rows| - 1;
      DistinctInserts(rows[..n], index);
      InsertsAreNew(rows[..n], index);
      var front := Inserts(rows[..n], index);
      forall j | 0 <= j < |front| ensures front[j] in rows
        && (!Blank(rows[n]) ==> Lower(Address(front[j])) != Lower(Address(rows[n])))
      {
        var k :| 0 <= k < n && rows[..n][k] == front[j];
        assert rows[k] == front[j];
      }
    }
  }

  // ---------------------------------------------------------------------------
  // Failing inputs
  // ---------------------------------------------------------------------------

  const EMPTY: Tables := Tables([], map[])

  /** One row under an address the index does not have goes to the end of the table, as often as it comes. */
  lemma TwiceApplied(t: Tables, index: map<string, nat>, user: string, portfolioId: string, row: Row)
    requires !Blank(row) && Coercible(row) && Lower(Address(row)) !in index
    ensures var r, c := Applied(t, index, user, portfolioId, [row, row]), Created(user, portfolioId, row);
            r.Ok? && r.value.tables.holdings == t.holdings + [c, c]
  {
    hide Strip, Lower, Created, WithFinancials, CoerceAssetClass, CoerceStatus;
    var rows, c := [row, row], Created(user, portfolioId, row);
    assert rows[..1] == [row] && rows[..1][..0] == [];
    assert Applied(t, index, user, portfolioId, rows[..1][..0]) == Ok(Progress(t, 0, 0, 0));
    assert Applied(t, index, user, portfolioId, rows[..1]).value.tables.holdings == t.holdings + [c];
    assert t.holdings + [c] + [c] == t.holdings + [c, c];
  }

  /** Under an address the index does have, both go to the holding that is there. */
  lemma TwiceUpdated(t: Tables, index: map<string, nat>, user: string, portfolioId: string, row: Row)
    requires !Blank(row) && Coercible(row) && Lower(Address(row)) in index
    requires index[Lower(Address(row))] < |t.holdings|
    ensures Applied(t, index, user, portfolioId, [row, row]).Ok?
    ensures Inserts([row, row], index) == []
  {
    hide Strip, Lower, Updated, WithFinancials, CoerceAssetClass, CoerceStatus;
    var rows := [row, row];
    assert rows[..1] == [row] && rows[..1][..0] == [];
    assert Applied(t, index, user, portfolioId, rows[..1][..0]) == Ok(Progress(t, 0, 0, 0));
    assert Applied(t, index, user, portfolioId, rows[..1]).Ok?;
    assert Inserts(rows[..1][..0], index) == [] && Inserts(rows[..1], index) == [];
  }

  /**
   An importable row that comes twice in one payload is stored twice if the table does not hold its
   address, and does no harm to a table with one holding per address if it does.
   */
  lemma RepeatedAddressStoredTwice(t: Tables, order: seq<nat>, user: string, portfolioId: string, row: Row)
    requires IsOrder(order, |t.holdings|) && !Blank(row) && Coercible(row)
    ensures var r := Imported(t, order, user, portfolioId, [row, row]);
            && r.Ok?
            && (Lower(Address(row)) !in ByAddress(t.holdings, user, order) ==>
                  !OnePerAddress(r.value.tables.holdings, user))
            && (OnePerAddress(t.holdings, user) && Lower(Address(row)) in ByAddress(t.holdings, user, order) ==>
                  OnePerAddress(r.value.tables.holdings, user))
  {
    var index := ByAddress(t.holdings, user, order);
    EveryOrderIndexes(t.holdings, user, order);
    hide Applied, Created, Strip, Lower, ByAddress, IsOrder;
    if Lower(Address(row)) !in index {
      TwiceApplied(t, index, user, portfolioId, row);
      CreatedLives(user, portfolioId, row, t.holdings);
      LowerNotEmpty(Address(row));
    } else {
      IndexLeads(t.holdings, user, index, Lower(Address(row)));
      TwiceUpdated(t, index, user, portfolioId, row);
      if OnePerAddress(t.holdings, user) {
        UniquenessKeptIff(t, order, user, portfolioId, [row, row]);
      }
    }
  }

  lemma CreatedLives(user: string, portfolioId: string, row: Row, before: seq<Holding>)
    requires !Blank(row) && Coercible(row)
    ensures var c := Created(user, portfolioId, row);
            && LivesAt(before + [c, c], user, Lower(Address(row)), |before|)
            && LivesAt(before + [c, c], user, Lower(Address(row)), |before| + 1)
  {
    NormOfStored(row);
    hide Strip, Lower;
  }

  /** On the table this leaves, a row with another status is not the same import every time. */
  lemma DuplicateBreaksSecondImport(user: string, portfolioId: string, row: Row, other: Row)
    requires !Blank(row) && Coercible(row) && Coercible(other) && Address(other) == Address(row)
    requires CoerceStatus(other.status) != CoerceStatus(row.status)
    ensures Imported(EMPTY, [], user, portfolioId, [row, row]).Ok?
    ensures var t := Imported(EMPTY, [], user, portfolioId, [row, row]).value.tables;
            && IsOrder([0, 1], |t.holdings|) && Imported(t, [0, 1], user, portfolioId, [other]).Ok?
            && var once := Imported(t, [0, 1], user, portfolioId, [other]).value.tables;
               exists later :: IsOrder(later, |once.holdings|) && !NoOp(once, later, user, portfolioId, [other])
  {
    TwiceOnEmpty(user, portfolioId, row);
    hide Imported, LivesAt, Lower, Absorbed, NoOp, CoerceStatus, Strip;
    var t := Imported(EMPTY, [], user, portfolioId, [row, row]).value.tables;
    OtherStatus(t, user, portfolioId, row, other);
    hide Coercible, Created;
    TieBreaksImport(t, user, portfolioId, other);
  }

  /** Two holdings under one address, the first of which lacks what the row says. */
  lemma TieBreaksImport(t: Tables, user: string, portfolioId: string, other: Row)
    requires |t.holdings| == 2 && !Blank(other) && Coercible(other) && !Absorbed(t, 0, other)
    requires LivesAt(t.holdings, user, Lower(Address(other)), 0) && LivesAt(t.holdings, user, Lower(Address(other)), 1)
    ensures IsOrder([0, 1], |t.holdings|) && Imported(t, [0, 1], user, portfolioId, [other]).Ok?
    ensures var once := Imported(t, [0, 1], user, portfolioId, [other]).value.tables;
            exists later :: IsOrder(later, |once.holdings|) && !NoOp(once, later, user, portfolioId, [other])
  {
    hide Imported, Coercible, Strip, Lower, Absorbed, NoOp, ByAddress, LivesAt;
    var order: seq<nat> := [0, 1];
    assert order[0] == 0 && order[1] == 1;
    OtherApplied(t, user, portfolioId, other);
    IndexedSecond(t.holdings, user, Lower(Address(other)));
    var index := ByAddress(t.holdings, user, order);
    assert DuplicateOf(t, user, index, [other], 0, 0);
    SecondImportIsNoOpIff(t, order, user, portfolioId, portfolioId, [other]);
  }

  lemma TwiceOnEmpty(user: string, portfolioId: string, row: Row)
    requires !Blank(row) && Coercible(row)
    ensures var r, c := Imported(EMPTY, [], user, portfolioId, [row, row]), Created(user, portfolioId, row);
            r.Ok? && r.value.tables.holdings == [c, c]
            && LivesAt([c, c], user, Lower(Address(row)), 0) && LivesAt([c, c], user, Lower(Address(row)), 1)
  {
    TwiceApplied(EMPTY, map[], user, portfolioId, row);
    CreatedLives(user, portfolioId, row, []);
    hide Applied, Created, Lower, Strip, LivesAt;
    var c := Created(user, portfolioId, row);
    assert [] + [c, c] == [c, c];
  }

  lemma OtherStatus(t: Tables, user: string, portfolioId: string, row: Row, other: Row)
    requires Coercible(row) && Coercible(other) && CoerceStatus(other.status) != CoerceStatus(row.status)
    requires 0 < |t.holdings| && t.holdings[0] == Created(user, portfolioId, row)
    ensures !Absorbed(t, 0, other)
  {
    hide Strip, Lower, ZipFor, CoerceAssetClass;
  }

  lemma OtherApplied(t: Tables, user: string, portfolioId: string, other: Row)
    requires Coercible(other) && |t.holdings| == 2
    ensures Imported(t, [0, 1], user, portfolioId, [other]).Ok?
  {
    hide Strip, Lower, Updated, Created, WithFinancials, CoerceAssetClass, CoerceStatus, ByAddress;
    var index := ByAddress(t.holdings, user, [0, 1]);
    assert [other][..0] == [];
    assert Applied(t, index, user, portfolioId, [other][..0]) == Ok(Progress(t, 0, 0, 0));
    hide Blank, Coercible;
  }

  lemma IndexedSecond(holdings: seq<Holding>, user: string, key: string)
    requires |holdings| == 2 && LivesAt(holdings, user, key, 0) && LivesAt(holdings, user, key, 1)
    ensures key in ByAddress(holdings, user, [0, 1]) && ByAddress(holdings, user, [0, 1])[key] == 1
  {
    hide Norm;
    var order: seq<nat> := [0, 1];
    assert order[1] == 1 && order[0] == 0;
    assert Norm(holdings[1].address) == key && holdings[1].owner == user && holdings[1].address != "";
    assert ByAddress(holdings, user, order) == ByAddress(holdings, user, order[..1])[key := 1];
  }
}
