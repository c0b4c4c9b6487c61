/** What headers, amounts and names of the CSV import mean, told without the tables and loops that read them. */
module CsvLaws {
  import opened Common
  import opened CsvText
  import opened CsvImport
  import B = BulkImport

  // ---------------------------------------------------------------------------
  // A header is its words
  // ---------------------------------------------------------------------------

  predicate Separates(c: char) { c == '_' || IsSpace(c) }

  /** The words of s behind cur, the word in hand. */
  function WordsFrom(s: string, cur: string): seq<string> {
    if s == "" then if cur == "" then [] else [cur]
    else if Separates(s[0]) then (if cur == "" then [] else [cur]) + WordsFrom(s[1..], "")
    else WordsFrom(s[1..], cur + [s[0]])
  }

  function Words(s: string): seq<string> { WordsFrom(s, "") }

  function Join(words: seq<string>): string {
    if words == [] then "" else if |words| == 1 then words[0] else words[0] + " " + Join(words[1..])
  }

  predicate Plain(s: string) { forall i :: 0 <= i < |s| ==> !Separates(s[i]) }

  lemma {:induction false} TrimEndAppend(a: string, b: string)
    ensures TrimEnd(a + b) == if TrimEnd(b) == "" then TrimEnd(a) else a + TrimEnd(b)
  {
    if b == "" {
      assert a + b == a;
    } else {
      var n := |b| - 1;
      assert (a + b)[..|a + b| - 1] == a + b[..n] && (a + b)[|a + b| - 1] == b[n];
      if IsSpace(b[n]) {
        TrimEndAppend(a, b[..n]);
      }
    }
  }

  lemma PlainKept(s: string)
    requires Plain(s)
    ensures TrimEnd(s) == s && TrimStart(s) == s
  {
  }

  /** Behind a word in hand, cut at the end: the word and the words to come. */
  lemma {:induction false} CollapseJoins(s: string, cur: string)
    requires Plain(cur)
    ensures cur != "" ==> TrimEnd(cur + Collapse(s, false)) == Join(WordsFrom(s, cur))
    ensures cur == "" ==> TrimEnd(Collapse(s, true)) == Join(WordsFrom(s, ""))
    decreases |s|
  {
    hide TrimEnd, TrimStart, Join, IsSpace;
    if s == "" {
      LastWord(cur);
    } else if Separates(s[0]) {
      CollapseJoins(s[1..], "");
      assert "" + Collapse(s[1..], true) == Collapse(s[1..], true);
      assert [] + WordsFrom(s[1..], "") == WordsFrom(s[1..], "");
      if cur != "" {
        NoEmptyWords(s[1..], "");
        AfterWord(cur, Collapse(s[1..], true), WordsFrom(s[1..], ""));
      }
    } else {
      CollapseJoins(s[1..], cur + [s[0]]);
      assert "" + [s[0]] == [s[0]];
      assert cur + ([s[0]] + Collapse(s[1..], false)) == cur + [s[0]] + Collapse(s[1..], false);
    }
  }

  lemma LastWord(cur: string)
    requires Plain(cur)
    ensures cur != "" ==> TrimEnd(cur + Collapse("", false)) == Join(WordsFrom("", cur))
    ensures TrimEnd(Collapse("", true)) == Join(WordsFrom("", ""))
  {
    PlainKept(cur);
    assert cur + "" == cur;
  }

  /** Words are not empty, so their join is empty only if there are none. */
  lemma {:induction false} NoEmptyWords(s: string, cur: string)
    ensures forall i :: 0 <= i < |WordsFrom(s, cur)| ==> WordsFrom(s, cur)[i] != ""
    decreases |s|
  {
    if s != "" {
      NoEmptyWords(s[1..], if Separates(s[0]) then "" else cur + [s[0]]);
    }
  }

  lemma AfterWord(cur: string, rest: string, words: seq<string>)
    requires Plain(cur) && cur != "" && TrimEnd(rest) == Join(words)
    requires forall i :: 0 <= i < |words| ==> words[i] != ""
    ensures TrimEnd(cur + (" " + rest)) == Join([cur] + words)
  {
    PlainKept(cur);
    TrimEndAppend(cur, " " + rest);
    TrimEndAppend(" ", rest);
    assert TrimEnd(" ") == "";
    if words == [] {
      assert [cur] + words == [cur];
    } else {
      assert ([cur] + words)[1..] == words;
      assert Join(words) != "";
      assert cur + (" " + Join(words)) == cur + " " + Join(words);
    }
  }

  /** A header's name is its words in lower case, with single spaces between them. */
  lemma NameIsWords(header: string)
    ensures Normalize(header) == Join(Words(Lower(header)))
  {
    NormalJoins(Lower(header));
  }

  lemma NormalJoins(s: string)
    ensures Trim(Collapse(s, false)) == Join(Words(s))
  {
    if s == "" {
    } else if Separates(s[0]) {
      CollapseJoins(s[1..], "");
      StartsClean(s[1..]);
      var rest := Collapse(s[1..], true);
      assert (" " + rest)[1..] == rest;
      assert TrimStart(" " + rest) == TrimStart(rest);
      assert [] + WordsFrom(s[1..], "") == WordsFrom(s[1..], "");
    } else {
      CollapseJoins(s[1..], [s[0]]);
      assert "" + [s[0]] == [s[0]];
      var all := Collapse(s, false);
      assert all[0] == s[0] && TrimStart(all) == all;
    }
  }

  /** A run that has had its space starts with a letter. */
  lemma {:induction false} StartsClean(s: string)
    ensures TrimStart(Collapse(s, true)) == Collapse(s, true)
  {
    if s != "" && Separates(s[0]) {
      StartsClean(s[1..]);
      assert "" + Collapse(s[1..], true) == Collapse(s[1..], true);
    }
  }

  /** The white space that trimming and splitting go by. */
  lemma WhiteSpace(c: char)
    ensures IsSpace(c) <==>
            || c == '\t' || c == '\n' || c == '\r' || c == ' ' || c == '\U{000B}' || c == '\U{000C}' || c == '\U{00A0}'
            || c == '\U{1680}' || c == '\U{2000}' || c == '\U{2001}' || c == '\U{2002}' || c == '\U{2003}'
            || c == '\U{2004}' || c == '\U{2005}' || c == '\U{2006}' || c == '\U{2007}' || c == '\U{2008}'
            || c == '\U{2009}' || c == '\U{200A}' || c == '\U{2028}' || c == '\U{2029}' || c == '\U{202F}'
            || c == '\U{205F}' || c == '\U{3000}' || c == '\U{FEFF}'
  {
  }

  // ---------------------------------------------------------------------------
  // Names
  // ---------------------------------------------------------------------------

  /** The names under which a field may come. */
  function NamesOf(f: Field): set<string> {
    match f
    case Address => {"address", "property", "property name", "property address"}
    case ZipCode => {"zip", "zip code", "zipcode", "postal code"}
    case AssetClass => {"asset class", "property type", "type"}
    case CostBasis => {"purchase price", "cost basis", "acquisition price"}
    case CurrentValueEstimate => {"market value", "estimated value", "current value"}
    case LoanBalance => {"mortgage balance", "loan balance", "outstanding loan"}
    case InterestRate => {"interest rate", "rate"}
    case MonthlyRent => {"monthly rent", "rent", "gross rent"}
    case MonthlyPiti => {"monthly piti", "piti"}
  }

  /** A name belongs to the one field that lists it. */
  lemma AliasIsListed(name: string, f: Field)
    ensures Alias(name) == Some(f) <==> name in NamesOf(f)
  {
    AliasIsOwn(name);
    if name in NamesOf(f) {
      ListedOnce(name, f);
    }
    hide NamesOf, Alias;
  }

  lemma AliasIsOwn(name: string)
    ensures match Alias(name) case None => forall f :: name !in NamesOf(f) case Some(f) => name in NamesOf(f)
  {
  }

  lemma ListedOnce(name: string, f: Field)
    requires name in NamesOf(f)
    ensures forall g :: name in NamesOf(g) ==> g == f
  {
  }

  /** The column a header heads: that of the field which lists its name. */
  predicate Heads(header: string, f: Field) { Join(Words(Lower(header))) in NamesOf(f) }

  lemma ColumnIsHeaded(headers: seq<string>, k: nat, f: Field)
    requires k < |headers|
    ensures ColumnsOf(headers)[k] == Some(f) <==> Heads(headers[k], f)
  {
    NameIsWords(headers[k]);
    AliasIsListed(Normalize(headers[k]), f);
    hide Normalize, Alias, NamesOf, Words, Join;
  }

  /** The export tool is told by the names of its own columns. */
  lemma FormatIsTold(headers: seq<string>)
    ensures var stessa := exists i :: 0 <= i < |headers| && Join(Words(Lower(headers[i]))) in OWN_TO_STESSA;
            var reiHub := exists i :: 0 <= i < |headers| && Join(Words(Lower(headers[i]))) in OWN_TO_REI_HUB;
            DetectFormat(headers) == if stessa then Stessa else if reiHub then ReiHub else Generic
  {
    forall i | 0 <= i < |headers| ensures Normalize(headers[i]) == Join(Words(Lower(headers[i]))) {
      NameIsWords(headers[i]);
    }
    hide Normalize, Words, Join;
  }

  const OWN_TO_STESSA: set<string> := {"market value", "mortgage balance"}
  const OWN_TO_REI_HUB: set<string> := {"loan balance", "estimated value"}

  /** The property types behind each asset class. */
  function TypesOf(c: B.AssetClass): set<string> {
    match c
    case Sfr => {"single family", "single-family", "sfr"}
    case Condo => {"condo"}
    case Townhouse => {"townhouse", "townhome"}
    case Mf2To4 => {"duplex", "triplex", "fourplex", "2-4 unit"}
    case Mf5Plus => {"multifamily", "multi-family"}
  }

  /** Every type is sent as a class the server reads: the class that lists it, or single family. */
  lemma ClassIsRead(raw: string, c: B.AssetClass)
    ensures B.CoerceAssetClass(AssetClassOf(raw)).Some?
    ensures Join(Words(Lower(raw))) in TypesOf(c) ==> B.CoerceAssetClass(AssetClassOf(raw)) == Some(c)
    ensures (forall d :: Join(Words(Lower(raw))) !in TypesOf(d)) ==>
              B.CoerceAssetClass(AssetClassOf(raw)) == Some(B.Sfr)
  {
    NameIsWords(raw);
    hide Normalize, Words, Join;
    var name := Normalize(raw);
    assert name in TypesOf(B.Sfr) || name in TypesOf(B.Condo) || name in TypesOf(B.Townhouse)
           || name in TypesOf(B.Mf2To4) || name in TypesOf(B.Mf5Plus) || forall d :: name !in TypesOf(d);
  }

  // ---------------------------------------------------------------------------
  // Amounts
  // ---------------------------------------------------------------------------

  predicate Noise(c: char) { c in "$,%" || IsSpace(c) }

  /** Cleaning drops the noise, piece by piece, and nothing else. */
  lemma {:induction false} CleanedKeepsRest(a: string, b: string)
    ensures Cleaned(a + b) == Cleaned(a) + Cleaned(b)
  {
    if a == "" {
      assert a + b == b;
    } else {
      CleanedKeepsRest(a[1..], b);
      CleanedStep(a[0], a[1..]);
      CleanedStep(a[0], a[1..] + b);
      hide Cleaned;
      assert a == [a[0]] + a[1..] && a + b == [a[0]] + (a[1..] + b);
    }
  }

  lemma CleanedStep(c: char, rest: string)
    ensures Cleaned([c] + rest) == (if IsMoneyNoise(c) then "" else [c]) + Cleaned(rest)
  {
    assert ([c] + rest)[1..] == rest;
  }

  predicate AllNoise(s: string) { forall i :: 0 <= i < |s| ==> Noise(s[i]) }
  predicate NoNoise(s: string) { forall i :: 0 <= i < |s| ==> !Noise(s[i]) }

  lemma NoiseIsNoise(c: char)
    ensures IsMoneyNoise(c) <==> Noise(c)
  {
  }

  lemma {:induction false} CleanedIsClean(s: string)
    ensures NoNoise(Cleaned(s)) && (NoNoise(s) ==> Cleaned(s) == s) && (AllNoise(s) <==> Cleaned(s) == "")
  {
    hide IsMoneyNoise, Noise;
    if s != "" {
      CleanedIsClean(s[1..]);
      NoiseIsNoise(s[0]);
      assert s == [s[0]] + s[1..];
    }
  }

  /** An amount is unreadable exactly when only noise is there, or the rest is no number. */
  lemma ReadableIff(raw: string, number: string -> Option<real>)
    ensures ParseMoney(raw, number).Some? <==> !AllNoise(raw) && number(Cleaned(raw)).Some?
    ensures ParseMoney(raw, number).Some? ==> ParseMoney(raw, number) == number(Cleaned(raw))
  {
    CleanedIsClean(raw);
    hide AllNoise, Cleaned;
  }

  /**
   A rate in percent is read as such exactly when it is above one or zero; one percent or less is taken for
   the fraction itself, with or without its sign.
   */
  lemma PercentReadIff(raw: string, number: string -> Option<real>)
    requires ParseMoney(raw, number).Some?
    ensures var percent := ParseMoney(raw, number).value;
            ParseRate(raw, number).Some? && (100.0 * ParseRate(raw, number).value == percent <==>
                                             percent > 1.0 || percent == 0.0)
    ensures var fraction := ParseMoney(raw, number).value;
            ParseRate(raw, number).value == fraction <==> fraction <= 1.0
  {
    hide ParseMoney;
  }

  /** Half a percent, written with its sign, comes out as fifty. */
  lemma SmallPercentIsLarge(number: string -> Option<real>)
    requires number("0.5") == Some(0.5)
    ensures ParseRate("0.5%", number) == Some(0.5)
  {
    CleanedKeepsRest("0.5", "%");
    CleanedIsClean("0.5");
    CleanedIsClean("%");
    hide Cleaned;
    assert "0.5" + "%" == "0.5%";
    assert AllNoise("%") && NoNoise("0.5");
    assert "0.5" + "" == "0.5";
  }

  // ---------------------------------------------------------------------------
  // What a holding holds
  // ---------------------------------------------------------------------------

  /** The last non-empty cell among the first n that stands under a name of the field. */
  function LastCell(headers: seq<string>, cells: seq<string>, n: nat, f: Field): Option<string>
    requires n <= |headers|
  {
    if n == 0 then None
    else if Heads(headers[n - 1], f) && n - 1 < |cells| && cells[n - 1] != "" then Some(cells[n - 1])
    else LastCell(headers, cells, n - 1, f)
  }

  lemma {:induction false} FlatIsLastCell(headers: seq<string>, cells: seq<string>, n: nat, f: Field)
    requires n <= |headers|
    ensures var flat := FlatOf(ColumnsOf(headers), cells, n);
            (f in flat <==> LastCell(headers, cells, n, f).Some?)
            && (f in flat ==> LastCell(headers, cells, n, f) == Some(flat[f]))
  {
    hide Heads, Normalize, Alias;
    if n > 0 {
      FlatIsLastCell(headers, cells, n - 1, f);
      ColumnIsHeaded(headers, n - 1, f);
      hide ColumnsOf;
    }
  }

  /** An amount as its cell reads, absent without a cell. */
  function Reads(cell: Option<string>, number: string -> Option<real>): Amount {
    if cell.Some? then Some(ParseMoney(cell.value, number)) else None
  }

  function ReadsRate(cell: Option<string>, number: string -> Option<real>): Amount {
    if cell.Some? then Some(ParseRate(cell.value, number)) else None
  }

  /**
   Each column of an imported holding is the last non-empty cell under one of the column's own names, and
   there are financials exactly if one of the six amounts can be read.
   */
  lemma HoldingReadsColumns(headers: seq<string>, format: Format, number: string -> Option<real>, cells: seq<string>,
                            r: nat)
    requires RowOutcome(ColumnsOf(headers), format, number, cells, r).Ok?
    ensures var h := RowOutcome(ColumnsOf(headers), format, number, cells, r).value;
            var cell := f => LastCell(headers, cells, |headers|, f);
            var cost, value, loan := Reads(cell(CostBasis), number), Reads(cell(CurrentValueEstimate), number),
                                     Reads(cell(LoanBalance), number);
            var rate, rent, piti := ReadsRate(cell(InterestRate), number), Reads(cell(MonthlyRent), number),
                                    Reads(cell(MonthlyPiti), number);
            && Some(h.address) == cell(Address) && h.zipCode == cell(ZipCode)
            && h.assetClass == (if cell(AssetClass).Some? then AssetClassOf(cell(AssetClass).value) else "sfr")
            && (h.financials.Some? <==>
                  Given(cost) || Given(value) || Given(loan) || Given(rate) || Given(rent) || Given(piti))
            && (h.financials.Some? ==>
                  var source := if value.Some? then Some(format) else None;
                  h.financials.value == ImportedFinancials(cost, value, source, loan, rate, rent, piti))
  {
    var columns := ColumnsOf(headers);
    forall f
      ensures var flat := FlatOf(columns, cells, |columns|);
              (f in flat <==> LastCell(headers, cells, |headers|, f).Some?)
              && (f in flat ==> LastCell(headers, cells, |headers|, f) == Some(flat[f]))
    {
      FlatIsLastCell(headers, cells, |headers|, f);
    }
    hide FlatOf, LastCell, ColumnsOf, ParseMoney, ParseRate, AssetClassOf;
  }
}
