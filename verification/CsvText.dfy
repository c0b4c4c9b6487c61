/**
 The quoted-field scanner of the portfolio CSV import, against the encoding that section 2 of
 RFC 4180 prescribes, for one record and for a whole file.
 */
module CsvText {

  const QUOTE: char := '\"'
  const CRLF: string := "\r\n"

  /** What String.prototype.trim removes: white space and line terminators. */
  predicate IsSpace(c: char) {
    || c in "\t\n\r "
    || c in "\U{000B}\U{000C}\U{00A0}\U{1680}\U{202F}\U{205F}\U{3000}\U{FEFF}\U{2028}\U{2029}"
    || '\U{2000}' <= c <= '\U{200A}'
  }

  function TrimStart(s: string): string {
    if s != "" && IsSpace(s[0]) then TrimStart(s[1..]) else s
  }

  function TrimEnd(s: string): string {
    if s != "" && IsSpace(s[|s| - 1]) then TrimEnd(s[..|s| - 1]) else s
  }

  function Trim(s: string): string {
    TrimEnd(TrimStart(s))
  }

  function TrimEach(fields: seq<string>): seq<string> {
    seq(|fields|, i requires 0 <= i < |fields| => Trim(fields[i]))
  }

  /** The fields still to come, given the one in hand and whether a quote is open. */
  function Scan(rest: string, current: string, inQuotes: bool): (fields: seq<string>)
    ensures fields != []
    decreases |rest|
  {
    if rest == "" then [current]
    else if inQuotes then
      if rest[0] == QUOTE then
        if |rest| > 1 && rest[1] == QUOTE then Scan(rest[2..], current + [QUOTE], true)
        else Scan(rest[1..], current, false)
      else Scan(rest[1..], current + [rest[0]], true)
    else if rest[0] == QUOTE then Scan(rest[1..], current, true)
    else if rest[0] == ',' then [current] + Scan(rest[1..], "", false)
    else Scan(rest[1..], current + [rest[0]], false)
  }

  function ParsedLine(line: string): seq<string> {
    TrimEach(Scan(line, "", false))
  }

  /** parseCsvLine. */
  method ParseCsvLine(line: string) returns (result: seq<string>)
    ensures result == ParsedLine(line)
  {
    var fields: seq<string> := [];
    var current, inQuotes := "", false;
    var i := 0;
    while i < |line|
      invariant 0 <= i <= |line|
      invariant fields + Scan(line[i..], current, inQuotes) == Scan(line, "", false)
    {
      var c := line[i];
      ghost var before, rest := fields, line[i..];
      if inQuotes {
        if c == QUOTE {
          if i + 1 < |line| && line[i + 1] == QUOTE {
            assert rest[2..] == line[i + 2..];
            current := current + [QUOTE];
            i := i + 1;
          } else {
            assert rest[1..] == line[i + 1..];
            inQuotes := false;
          }
        } else {
          assert rest[1..] == line[i + 1..];
          current := current + [c];
        }
      } else if c == QUOTE {
        assert rest[1..] == line[i + 1..];
        inQuotes := true;
      } else if c == ',' {
        assert rest[1..] == line[i + 1..];
        assert before + ([current] + Scan(line[i + 1..], "", false)) ==
               (before + [current]) + Scan(line[i + 1..], "", false);
        fields := fields + [current];
        current := "";
      } else {
        assert rest[1..] == line[i + 1..];
        current := current + [c];
      }
      i := i + 1;
    }
    assert line[i..] == "";
    fields := fields + [current];
    result := seq(|fields|, k requires 0 <= k < |fields| => Trim(fields[k]));
  }

  // ---------------------------------------------------------------------------
  // One record
  // ---------------------------------------------------------------------------

  predicate NeedsQuotes(field: string) {
    QUOTE in field || ',' in field || '\r' in field || '\n' in field
  }

  function Doubled(field: string): string {
    if field == "" then ""
    else (if field[0] == QUOTE then [QUOTE, QUOTE] else [field[0]]) + Doubled(field[1..])
  }

  /** Any field may be enclosed in quotes; one holding a quote, a comma or a line break must be. */
  function EncodeField(field: string, quoted: bool): string {
    if quoted || NeedsQuotes(field) then [QUOTE] + Doubled(field) + [QUOTE] else field
  }

  /** A record: its fields, and which of them are enclosed although they need not be. */
  datatype Record = Record(fields: seq<string>, quoted: seq<bool>) {
    predicate Valid() { |fields| == |quoted| && fields != [] }
  }

  function EncodeRecord(r: Record): string
    requires r.Valid()
    decreases |r.fields|
  {
    var first := EncodeField(r.fields[0], r.quoted[0]);
    if |r.fields| == 1 then first else first + "," + EncodeRecord(Record(r.fields[1..], r.quoted[1..]))
  }

  lemma {:induction false} ScanPlain(field: string, rest: string, current: string)
    requires !NeedsQuotes(field)
    ensures Scan(field + rest, current, false) == Scan(rest, current + field, false)
    decreases |field|
  {
    if field == "" {
      assert field + rest == rest && current + field == current;
    } else {
      ScanPlain(field[1..], rest, current + [field[0]]);
      assert (field + rest)[1..] == field[1..] + rest;
      assert current + [field[0]] + field[1..] == current + field;
    }
  }

  lemma {:induction false} ScanQuoted(field: string, rest: string, current: string)
    requires rest == "" || rest[0] != QUOTE
    ensures Scan(Doubled(field) + [QUOTE] + rest, current, true) == Scan(rest, current + field, false)
    decreases |field|
  {
    var text := Doubled(field) + [QUOTE] + rest;
    if field == "" {
      assert text[0] == QUOTE && text[1..] == rest && current + field == current;
    } else {
      var tail := Doubled(field[1..]) + [QUOTE] + rest;
      ScanQuoted(field[1..], rest, current + [field[0]]);
      assert current + [field[0]] + field[1..] == current + field;
      if field[0] == QUOTE {
        assert text[0] == QUOTE && text[1] == QUOTE && text[2..] == tail;
      } else {
        assert text[0] == field[0] && text[1..] == tail;
      }
    }
  }

  lemma ScanField(field: string, quoted: bool, rest: string)
    requires rest == "" || rest[0] == ','
    ensures Scan(EncodeField(field, quoted) + rest, "", false) == Scan(rest, field, false)
  {
    assert "" + field == field;
    if quoted || NeedsQuotes(field) {
      ScanQuoted(field, rest, "");
      var text := EncodeField(field, quoted) + rest;
      assert text[0] == QUOTE && text[1..] == Doubled(field) + [QUOTE] + rest;
    } else {
      ScanPlain(field, rest, "");
    }
  }

  lemma {:induction false} ScanRecord(r: Record)
    requires r.Valid()
    ensures Scan(EncodeRecord(r), "", false) == r.fields
    decreases |r.fields|
  {
    hide EncodeField;
    var first := EncodeField(r.fields[0], r.quoted[0]);
    if |r.fields| == 1 {
      ScanField(r.fields[0], r.quoted[0], "");
      assert first + "" == first;
    } else {
      var tail := Record(r.fields[1..], r.quoted[1..]);
      ScanRecord(tail);
      var rest := "," + EncodeRecord(tail);
      ScanField(r.fields[0], r.quoted[0], rest);
      assert EncodeRecord(r) == first + rest;
      assert rest[1..] == EncodeRecord(tail);
    }
  }

  /** Reading an encoded record gives back every field, trimmed, whatever was quoted. */
  lemma ParseInvertsEncode(r: Record)
    requires r.Valid()
    ensures ParsedLine(EncodeRecord(r)) == TrimEach(r.fields)
  {
    ScanRecord(r);
  }

  /** So the record itself comes back exactly when no field begins or ends with white space. */
  lemma RoundTripIff(r: Record)
    requires r.Valid()
    ensures ParsedLine(EncodeRecord(r)) == r.fields <==> forall i :: 0 <= i < |r.fields| ==> IsTrimmed(r.fields[i])
  {
    ParseInvertsEncode(r);
    forall i | 0 <= i < |r.fields| ensures Trim(r.fields[i]) == r.fields[i] <==> IsTrimmed(r.fields[i]) {
      TrimmedIff(r.fields[i]);
    }
    assert TrimEach(r.fields) == r.fields <==> forall i :: 0 <= i < |r.fields| ==> TrimEach(r.fields)[i] == r.fields[i];
  }

  predicate IsTrimmed(field: string) {
    field != "" ==> !IsSpace(field[0]) && !IsSpace(field[|field| - 1])
  }

  lemma {:induction false} TrimStartShortens(s: string)
    ensures |TrimStart(s)| <= |s| && (|TrimStart(s)| == |s| <==> s == "" || !IsSpace(s[0]))
  {
    if s != "" && IsSpace(s[0]) {
      TrimStartShortens(s[1..]);
    }
  }

  lemma {:induction false} TrimEndShortens(s: string)
    ensures |TrimEnd(s)| <= |s| && (|TrimEnd(s)| == |s| <==> s == "" || !IsSpace(s[|s| - 1]))
  {
    if s != "" && IsSpace(s[|s| - 1]) {
      TrimEndShortens(s[..|s| - 1]);
    }
  }

  lemma TrimmedIff(s: string)
    ensures Trim(s) == s <==> IsTrimmed(s)
  {
    TrimStartShortens(s);
    TrimEndShortens(TrimStart(s));
    hide IsSpace;
  }

  // ---------------------------------------------------------------------------
  // A file
  // ---------------------------------------------------------------------------

  /** text.split at an optional carriage return and a line feed. */
  function Split(rest: string, current: string): (lines: seq<string>)
    decreases |rest|
  {
    if rest == "" then [current]
    else if rest[0] == '\n' then [current] + Split(rest[1..], "")
    else if |rest| > 1 && rest[0] == '\r' && rest[1] == '\n' then [current] + Split(rest[2..], "")
    else Split(rest[1..], current + [rest[0]])
  }

  predicate Blank(line: string) {
    Trim(line) == ""
  }

  function Kept(line: string): seq<string> {
    if Blank(line) then [] else [line]
  }

  function NonBlank(lines: seq<string>): seq<string> {
    if lines == [] then [] else Kept(lines[0]) + NonBlank(lines[1..])
  }

  /** The lines the import works on. */
  function Lines(text: string): seq<string> {
    NonBlank(Split(text, ""))
  }

  function ParseEach(lines: seq<string>): (rows: seq<seq<string>>)
    ensures |rows| == |lines|
    ensures forall i :: 0 <= i < |lines| ==> rows[i] == ParsedLine(lines[i])
  {
    if lines == [] then [] else [ParsedLine(lines[0])] + ParseEach(lines[1..])
  }

  /** Records on lines of their own; the line break after the last is optional. */
  function EncodeFile(records: seq<Record>, final: bool): string
    requires records != [] && forall i :: 0 <= i < |records| ==> records[i].Valid()
  {
    var line := EncodeRecord(records[0]);
    if |records| == 1 then line + (if final then CRLF else "")
    else line + CRLF + EncodeFile(records[1..], final)
  }

  function ExpectedRow(r: Record): seq<seq<string>>
    requires r.Valid()
  {
    if Blank(EncodeRecord(r)) then [] else [TrimEach(r.fields)]
  }

  /** The rows a reader should see: the trimmed fields of each record that is not blank. */
  function ExpectedRows(records: seq<Record>): seq<seq<string>>
    requires forall i :: 0 <= i < |records| ==> records[i].Valid()
  {
    if records == [] then []
    else ExpectedRow(records[0]) + ExpectedRows(records[1..])
  }

  /** A record with a line feed inside a field. */
  predicate HasBreak(r: Record) {
    exists i :: 0 <= i < |r.fields| && '\n' in r.fields[i]
  }

  lemma {:induction false} SplitAtBreak(line: string, rest: string, current: string)
    ensures Split(line + CRLF + rest, current) == Split(line, current) + Split(rest, "")
    decreases |line|
  {
    var text := line + CRLF + rest;
    if line == "" {
      assert text[0] == '\r' && text[1] == '\n' && text[2..] == rest;
    } else if line[0] == '\n' {
      SplitAtBreak(line[1..], rest, "");
      assert text[1..] == line[1..] + CRLF + rest;
    } else if |line| > 1 && line[0] == '\r' && line[1] == '\n' {
      SplitAtBreak(line[2..], rest, "");
      assert text[2..] == line[2..] + CRLF + rest;
    } else {
      SplitAtBreak(line[1..], rest, current + [line[0]]);
      assert text[1..] == line[1..] + CRLF + rest;
      assert text[0] == '\r' ==> text[1] != '\n';
    }
  }

  lemma {:induction false} SplitUnbroken(line: string, current: string)
    requires '\n' !in line
    ensures Split(line, current) == [current + line]
    decreases |line|
  {
    if line == "" {
      assert current + line == current;
    } else {
      SplitUnbroken(line[1..], current + [line[0]]);
      assert current + [line[0]] + line[1..] == current + line;
    }
  }

  lemma {:induction false} NonBlankConcat(a: seq<string>, b: seq<string>)
    ensures NonBlank(a + b) == NonBlank(a) + NonBlank(b)
  {
    hide Kept;
    if a == [] {
      assert a + b == b;
    } else {
      NonBlankConcat(a[1..], b);
      assert Kept(a[0]) + (NonBlank(a[1..]) + NonBlank(b)) == (Kept(a[0]) + NonBlank(a[1..])) + NonBlank(b);
      assert (a + b)[1..] == a[1..] + b;
    }
  }

  lemma ParseConcat(a: seq<string>, b: seq<string>)
    ensures ParseEach(a + b) == ParseEach(a) + ParseEach(b)
  {
    hide ParseEach, ParsedLine;
    forall i | 0 <= i < |a| + |b| ensures ParseEach(a + b)[i] == (ParseEach(a) + ParseEach(b))[i] {
      assert (a + b)[i] == if i < |a| then a[i] else b[i - |a|];
    }
  }

  /** Each record is split and read on its own. */
  lemma LinesOfFile(records: seq<Record>, final: bool)
    requires records != [] && forall i :: 0 <= i < |records| ==> records[i].Valid()
    ensures Lines(EncodeFile(records, final)) ==
            Lines(EncodeRecord(records[0])) + (if |records| == 1 then [] else Lines(EncodeFile(records[1..], final)))
  {
    hide EncodeRecord, Split, NonBlank, Kept;
    var line := EncodeRecord(records[0]);
    if |records| == 1 && !final {
      assert line + "" == line;
    } else {
      var rest := if |records| == 1 then "" else EncodeFile(records[1..], final);
      assert line + CRLF + "" == line + CRLF;
      SplitAtBreak(line, rest, "");
      NonBlankConcat(Split(line, ""), Split(rest, ""));
      NothingIsBlank();
    }
  }

  lemma NothingIsBlank()
    ensures Lines("") == []
  {
  }

  lemma {:induction false} DoubledKeeps(field: string, c: char)
    ensures c in Doubled(field) <==> c in field
  {
    if field != "" {
      DoubledKeeps(field[1..], c);
      assert field == [field[0]] + field[1..];
    }
  }

  lemma {:induction false} RecordKeepsBreaks(r: Record)
    requires r.Valid() && !HasBreak(r)
    ensures '\n' !in EncodeRecord(r)
    decreases |r.fields|
  {
    assert '\n' !in r.fields[0];
    DoubledKeeps(r.fields[0], '\n');
    if |r.fields| > 1 {
      var tail := Record(r.fields[1..], r.quoted[1..]);
      forall i | 0 <= i < |tail.fields| ensures '\n' !in tail.fields[i] {
        assert tail.fields[i] == r.fields[i + 1];
      }
      RecordKeepsBreaks(tail);
    }
  }

  /** A record without line feeds is read back from its one line, unless that line is blank. */
  lemma UnbrokenRecord(r: Record)
    requires r.Valid() && !HasBreak(r)
    ensures ParseEach(Lines(EncodeRecord(r))) == ExpectedRow(r)
  {
    RecordKeepsBreaks(r);
    SplitUnbroken(EncodeRecord(r), "");
    assert "" + EncodeRecord(r) == EncodeRecord(r);
    ParseInvertsEncode(r);
    hide EncodeRecord, Blank, TrimEach, ParsedLine, Split;
    var line := EncodeRecord(r);
    assert NonBlank([line]) == if Blank(line) then [] else [line];
  }

  // A quoted line feed leaves a quote on both sides of it, so both halves survive as lines.

  ghost predicate Torn(line: string) {
    exists k :: 0 <= k < |line| && line[k] == '\n' && QUOTE in line[..k] && QUOTE in line[k + 1..]
  }

  lemma TornInside(before: string, line: string, behind: string)
    requires Torn(line)
    ensures Torn(before + line + behind)
  {
    var k :| 0 <= k < |line| && line[k] == '\n' && QUOTE in line[..k] && QUOTE in line[k + 1..];
    var all, n := before + line + behind, |before| + k;
    assert all[..n] == before + line[..k];
    assert all[n + 1..] == line[k + 1..] + behind;
    assert all[n] == '\n';
  }

  lemma FieldTorn(field: string, quoted: bool)
    requires '\n' in field
    ensures Torn(EncodeField(field, quoted))
  {
    DoubledKeeps(field, '\n');
    var k :| 0 <= k < |Doubled(field)| && Doubled(field)[k] == '\n';
    var text := EncodeField(field, quoted);
    assert text[k + 1] == '\n';
    assert text[..k + 1][0] == QUOTE;
    assert text[k + 2..][|text| - k - 3] == QUOTE;
  }

  function Behind(r: Record): string
    requires r.Valid()
  {
    if |r.fields| == 1 then "" else "," + EncodeRecord(Record(r.fields[1..], r.quoted[1..]))
  }

  lemma RecordParts(r: Record)
    requires r.Valid()
    ensures EncodeRecord(r) == "" + EncodeField(r.fields[0], r.quoted[0]) + Behind(r)
  {
    hide EncodeField;
  }

  lemma FirstTorn(r: Record)
    requires r.Valid() && '\n' in r.fields[0]
    ensures Torn(EncodeRecord(r))
  {
    hide Torn, EncodeField, Behind, EncodeRecord;
    FieldTorn(r.fields[0], r.quoted[0]);
    TornInside("", EncodeField(r.fields[0], r.quoted[0]), Behind(r));
    RecordParts(r);
  }

  lemma BreakLater(r: Record)
    requires r.Valid() && HasBreak(r) && '\n' !in r.fields[0]
    ensures |r.fields| > 1 && HasBreak(Record(r.fields[1..], r.quoted[1..]))
  {
    var i :| 0 <= i < |r.fields| && '\n' in r.fields[i];
    assert r.fields[1..][i - 1] == r.fields[i];
  }

  lemma {:induction false} RecordTorn(r: Record)
    requires r.Valid() && HasBreak(r)
    ensures Torn(EncodeRecord(r))
    decreases |r.fields|
  {
    hide Torn, EncodeField, HasBreak;
    if '\n' in r.fields[0] {
      FirstTorn(r);
    } else {
      BreakLater(r);
      var first, tail := EncodeField(r.fields[0], r.quoted[0]), Record(r.fields[1..], r.quoted[1..]);
      RecordTorn(tail);
      TornInside(first + ",", EncodeRecord(tail), "");
      assert EncodeRecord(r) == first + "," + EncodeRecord(tail) + "";
    }
  }

  lemma {:induction false} TrimStartKeepsQuote(s: string)
    requires QUOTE in s
    ensures QUOTE in TrimStart(s)
  {
    if s != "" && IsSpace(s[0]) {
      assert s == [s[0]] + s[1..];
      TrimStartKeepsQuote(s[1..]);
    }
  }

  lemma {:induction false} TrimEndKeepsQuote(s: string)
    requires QUOTE in s
    ensures QUOTE in TrimEnd(s)
  {
    if s != "" && IsSpace(s[|s| - 1]) {
      assert s == s[..|s| - 1] + [s[|s| - 1]];
      TrimEndKeepsQuote(s[..|s| - 1]);
    }
  }

  lemma QuoteIsNotBlank(line: string)
    requires QUOTE in line
    ensures NonBlank([line]) == [line]
  {
    TrimStartKeepsQuote(line);
    TrimEndKeepsQuote(TrimStart(line));
  }

  lemma LineFirst(line: string, rest: seq<string>)
    ensures NonBlank([line] + rest) == NonBlank([line]) + NonBlank(rest)
  {
    NonBlankConcat([line], rest);
  }

  lemma {:induction false} QuotedTextIsLine(rest: string, current: string)
    requires QUOTE in current + rest
    ensures NonBlank(Split(rest, current)) != []
    decreases |rest|
  {
    hide Kept, NonBlank;
    if rest == "" {
      assert current + rest == current;
      QuoteIsNotBlank(current);
    } else if rest[0] == '\n' {
      StartsLine(rest[1..], current, [rest[0]], rest);
    } else if |rest| > 1 && rest[0] == '\r' && rest[1] == '\n' {
      StartsLine(rest[2..], current, rest[..2], rest);
    } else {
      assert current + [rest[0]] + rest[1..] == current + rest;
      QuotedTextIsLine(rest[1..], current + [rest[0]]);
    }
  }

  lemma {:induction false} StartsLine(tail: string, current: string, sep: string, rest: string)
    requires QUOTE in current + rest && rest == sep + tail && QUOTE !in sep && sep != ""
    ensures NonBlank([current] + Split(tail, "")) != []
    decreases |rest|, 0
  {
    hide Kept, NonBlank;
    LineFirst(current, Split(tail, ""));
    if QUOTE in current {
      QuoteIsNotBlank(current);
    } else {
      assert "" + tail == tail;
      QuotedTextIsLine(tail, "");
    }
  }

  lemma {:induction false} TornIsTwoLines(a: string, b: string, current: string)
    requires QUOTE in current + a && QUOTE in b
    ensures |NonBlank(Split(a + "\n" + b, current))| >= 2
    decreases |a|
  {
    hide Kept, NonBlank;
    var text := a + "\n" + b;
    if a == "" {
      assert text[0] == '\n' && text[1..] == b && current + a == current;
      TwoLines(b, current);
    } else if a[0] == '\n' {
      assert text[1..] == a[1..] + "\n" + b;
      LineFirst(current, Split(text[1..], ""));
      if QUOTE in current {
        TwoLines(text[1..], current);
      } else {
        assert "" + a[1..] == a[1..];
        TornIsTwoLines(a[1..], b, "");
      }
    } else if a == "\r" {
      assert text[0] == '\r' && text[1] == '\n' && text[2..] == b;
      TwoLines(b, current);
    } else if a[0] == '\r' && a[1] == '\n' {
      assert text[2..] == a[2..] + "\n" + b;
      LineFirst(current, Split(text[2..], ""));
      if QUOTE in current {
        TwoLines(text[2..], current);
      } else {
        assert "" + a[2..] == a[2..];
        TornIsTwoLines(a[2..], b, "");
      }
    } else {
      assert text[1..] == a[1..] + "\n" + b;
      assert current + [a[0]] + a[1..] == current + a;
      TornIsTwoLines(a[1..], b, current + [a[0]]);
    }
  }

  lemma TwoLines(tail: string, current: string)
    requires QUOTE in current && QUOTE in tail
    ensures |NonBlank([current] + Split(tail, ""))| >= 2
  {
    hide Kept, NonBlank;
    LineFirst(current, Split(tail, ""));
    QuoteIsNotBlank(current);
    assert "" + tail == tail;
    QuotedTextIsLine(tail, "");
  }

  lemma TornLine(line: string)
    requires Torn(line)
    ensures |Lines(line)| >= 2
  {
    var k :| 0 <= k < |line| && line[k] == '\n' && QUOTE in line[..k] && QUOTE in line[k + 1..];
    hide Split, NonBlank, Torn;
    assert line == line[..k] + "\n" + line[k + 1..];
    assert "" + line[..k] == line[..k];
    TornIsTwoLines(line[..k], line[k + 1..], "");
  }

  lemma BrokenRecord(r: Record)
    requires r.Valid() && HasBreak(r)
    ensures |Lines(EncodeRecord(r))| >= 2
  {
    hide Lines, Torn, EncodeRecord;
    RecordTorn(r);
    TornLine(EncodeRecord(r));
  }

  lemma AtMostOneRow(r: Record)
    requires r.Valid()
    ensures |ExpectedRow(r)| <= 1
  {
  }

  lemma {:induction false} RowsAgainstRecords(records: seq<Record>, final: bool)
    requires records != [] && forall i :: 0 <= i < |records| ==> records[i].Valid()
    ensures var rows := ParseEach(Lines(EncodeFile(records, final)));
            if exists i :: 0 <= i < |records| && HasBreak(records[i]) then |rows| > |ExpectedRows(records)|
            else rows == ExpectedRows(records)
  {
    hide EncodeRecord, EncodeFile, Lines, ExpectedRow, ParseEach, HasBreak;
    var first := Lines(EncodeRecord(records[0]));
    var others := if |records| == 1 then [] else Lines(EncodeFile(records[1..], final));
    LinesOfFile(records, final);
    AtMostOneRow(records[0]);
    ParseConcat(first, others);
    if |records| == 1 {
      EmptyRows();
      assert records[1..] == [];
    } else {
      RowsAgainstRecords(records[1..], final);
    }
    if HasBreak(records[0]) {
      BrokenRecord(records[0]);
    } else {
      UnbrokenRecord(records[0]);
    }
    BreakSomewhere(records);
  }

  lemma BreakSomewhere(records: seq<Record>)
    requires records != []
    ensures (exists i :: 0 <= i < |records| && HasBreak(records[i])) <==>
            HasBreak(records[0]) || exists i :: 0 <= i < |records[1..]| && HasBreak(records[1..][i])
  {
    hide HasBreak;
    if i :| 0 < i < |records| && HasBreak(records[i]) {
      assert HasBreak(records[1..][i - 1]);
    }
  }

  lemma EmptyRows()
    ensures ParseEach([]) == [] && ExpectedRows([]) == []
  {
  }

  /**
   A file written by the rules is read back row for row exactly when no field holds a line feed:
   lines are cut before quotes are looked at, so a quoted line break always yields an extra row.
   */
  lemma FileReadsBackIff(records: seq<Record>, final: bool)
    requires records != [] && forall i :: 0 <= i < |records| ==> records[i].Valid()
    ensures ParseEach(Lines(EncodeFile(records, final))) == ExpectedRows(records) <==>
            forall i :: 0 <= i < |records| ==> !HasBreak(records[i])
  {
    hide EncodeFile, Lines, ExpectedRows, ParseEach, HasBreak;
    RowsAgainstRecords(records, final);
  }

  /** A field with a space before it does not come back as it was. */
  lemma LeadingSpaceIsLost()
    ensures var r := Record([" a"], [false]);
            r.Valid() && ParsedLine(EncodeRecord(r)) != r.fields
  {
    var r := Record([" a"], [false]);
    RoundTripIff(r);
    assert !IsTrimmed(r.fields[0]);
  }

  /** A quoted line break, which the rules allow, yields rows that nobody wrote. */
  lemma QuotedBreakIsTorn()
    ensures var records := [Record(["a\nb"], [true])];
            && records[0].Valid()
            && ParseEach(Lines(EncodeFile(records, false))) != ExpectedRows(records)
  {
    var records := [Record(["a\nb"], [true])];
    assert records[0].fields[0][1] == '\n';
    assert HasBreak(records[0]);
    hide EncodeFile, Lines, ExpectedRows, ParseEach, HasBreak;
    FileReadsBackIff(records, false);
  }
}
