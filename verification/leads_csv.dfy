/** The leads export: guarding, quoting and joining, and a reader that follows RFC 4180. */
module LeadsCsv {
  import opened Prelude

  const QUOTE := '"'
  const COMMA := ','
  const BREAK := '\n'
  const APOSTROPHE := '\''

  // ----- writing

  /** A spreadsheet would run a value that opens like this as a formula. */
  predicate OpensFormula(value: string) {
    value != "" && value[0] in "=+-@\t\r"
  }

  function Guard(value: string): string {
    if OpensFormula(value) then [APOSTROPHE] + value else value
  }

  function DoubleQuotes(value: string): string {
    if value == "" then ""
    else (if value[0] == QUOTE then [QUOTE, QUOTE] else [value[0]]) + DoubleQuotes(value[1..])
  }

  function Escape(value: string): string {
    [QUOTE] + DoubleQuotes(Guard(value)) + [QUOTE]
  }

  function EscapeAll(values: seq<string>): (cells: seq<string>)
    ensures |cells| == |values|
    ensures forall i :: 0 <= i < |values| ==> cells[i] == Escape(values[i])
  {
    if values == [] then [] else [Escape(values[0])] + EscapeAll(values[1..])
  }

  function Line(values: seq<string>): string {
    Join(EscapeAll(values), COMMA)
  }

  function Lines(grid: seq<seq<string>>): (lines: seq<string>)
    ensures |lines| == |grid|
  {
    if grid == [] then [] else [Line(grid[0])] + Lines(grid[1..])
  }

  datatype Lead = Lead(
    name: string,
    email: string,
    phone: string,
    suburb: string,
    attribution: string,
    source: string,
    quality: string,
    duplicateCandidate: bool,
    delivery: string,
    createdAt: string)

  datatype Columns = Columns(
    name: string,
    email: string,
    phone: string,
    suburb: string,
    sourceAd: string,
    quality: string,
    status: string,
    delivery: string,
    capturedAt: string)

  /** The words the page shows, which the export repeats. */
  datatype Copy = Copy(columns: Columns, possibleDuplicate: string, newLead: string)

  function Header(c: Columns): seq<string> {
    [c.name, c.email, c.phone, c.suburb, c.sourceAd, c.quality, c.status, c.delivery, c.capturedAt]
  }

  function SourceAdLabel(lead: Lead): string {
    if lead.attribution != "" then lead.attribution else lead.source
  }

  function Cells(lead: Lead, copy: Copy): seq<string> {
    [lead.name, lead.email, lead.phone, lead.suburb, SourceAdLabel(lead), lead.quality,
     if lead.duplicateCandidate then copy.possibleDuplicate else copy.newLead,
     lead.delivery, lead.createdAt]
  }

  function Rows(leads: seq<Lead>, copy: Copy): (rows: seq<seq<string>>)
    ensures |rows| == |leads|
    ensures forall i :: 0 <= i < |leads| ==> rows[i] == Cells(leads[i], copy)
  {
    if leads == [] then [] else [Cells(leads[0], copy)] + Rows(leads[1..], copy)
  }

  function Grid(leads: seq<Lead>, copy: Copy): seq<seq<string>> {
    [Header(copy.columns)] + Rows(leads, copy)
  }

  function Export(leads: seq<Lead>, copy: Copy): string {
    Join(Lines(Grid(leads, copy)), BREAK)
  }

  // ----- reading, by the grammar of section 2 of RFC 4180 with a line feed as the line break

  /** The record that a lead should make. */
  predicate IsRecordOf(fields: seq<string>, lead: Lead, copy: Copy) {
    && |fields| == 9
    && fields[0] == Guard(lead.name) && fields[1] == Guard(lead.email) && fields[2] == Guard(lead.phone) && fields[3] == Guard(lead.suburb)
    && fields[4] == Guard(if lead.attribution != "" then lead.attribution else lead.source)
    && fields[5] == Guard(lead.quality)
    && fields[6] == Guard(if lead.duplicateCandidate then copy.possibleDuplicate else copy.newLead)
    && fields[7] == Guard(lead.delivery) && fields[8] == Guard(lead.createdAt)
  }

  predicate IsHeaderOf(fields: seq<string>, c: Columns) {
    && |fields| == 9
    && fields[0] == Guard(c.name) && fields[1] == Guard(c.email) && fields[2] == Guard(c.phone) && fields[3] == Guard(c.suburb)
    && fields[4] == Guard(c.sourceAd) && fields[5] == Guard(c.quality) && fields[6] == Guard(c.status)
    && fields[7] == Guard(c.delivery) && fields[8] == Guard(c.capturedAt)
  }

  datatype Field = Field(value: string, rest: string)
  datatype Record = Record(fields: seq<string>, rest: string)

  /** escaped = DQUOTE *(TEXTDATA / COMMA / CR / LF / 2DQUOTE) DQUOTE, after the opening quote */
  function ReadEscaped(text: string): (f: Option<Field>)
    ensures f.Some? ==> |f.value.rest| < |text|
  {
    if text == "" then None
    else if text[0] == '"' && (|text| == 1 || text[1] != '"') then Some(Field("", text[1..]))
    else
      var next := if text[0] == '"' then text[2..] else text[1..];
      match ReadEscaped(next)
      case None => None
      case Some(f) => Some(Field([text[0]] + f.value, f.rest))
  }

  /** non-escaped = *TEXTDATA */
  function ReadPlain(text: string): (f: Field)
    ensures |f.rest| <= |text|
  {
    if text == "" || text[0] in [',', '\n', '"'] then Field("", text)
    else var f := ReadPlain(text[1..]); Field([text[0]] + f.value, f.rest)
  }

  function ReadField(text: string): (f: Option<Field>)
    ensures f.Some? ==> |f.value.rest| <= |text|
  {
    if text != "" && text[0] == '"' then ReadEscaped(text[1..]) else Some(ReadPlain(text))
  }

  /** record = field *(COMMA field), up to a line break or the end of the text */
  function ReadRecord(text: string): (r: Option<Record>)
    ensures r.Some? ==> |r.value.rest| <= |text|
    ensures r.Some? ==> r.value.rest == "" || r.value.rest[0] == '\n'
    decreases |text|
  {
    match ReadField(text)
    case None => None
    case Some(f) =>
      if f.rest == "" || f.rest[0] == '\n' then Some(Record([f.value], f.rest))
      else if f.rest[0] != ',' then None
      else
        match ReadRecord(f.rest[1..])
        case None => None
        case Some(r) => Some(Record([f.value] + r.fields, r.rest))
  }

  /** file = record *(BREAK record) [BREAK] */
  function Read(text: string): Option<seq<seq<string>>>
    decreases |text|
  {
    match ReadRecord(text)
    case None => None
    case Some(r) =>
      if |r.rest| <= 1 then Some([r.fields])
      else
        match Read(r.rest[1..])
        case None => None
        case Some(records) => Some([r.fields] + records)
  }

  // ----- reading undoes writing

  function GuardAll(values: seq<string>): (guarded: seq<string>)
    ensures |guarded| == |values|
    ensures forall i :: 0 <= i < |values| ==> guarded[i] == Guard(values[i])
  {
    if values == [] then [] else [Guard(values[0])] + GuardAll(values[1..])
  }

  function GuardGrid(grid: seq<seq<string>>): (guarded: seq<seq<string>>)
    ensures |guarded| == |grid|
    ensures forall i :: 0 <= i < |grid| ==> guarded[i] == GuardAll(grid[i])
  {
    if grid == [] then [] else [GuardAll(grid[0])] + GuardGrid(grid[1..])
  }

  /** One quoted character and what follows. */
  lemma ReadOne(c: char, tail: string)
    ensures ReadEscaped((if c == QUOTE then [QUOTE, QUOTE] else [c]) + tail)
      == match ReadEscaped(tail)
         case None => None
         case Some(f) => Some(Field([c] + f.value, f.rest))
  {
    var text := (if c == QUOTE then [QUOTE, QUOTE] else [c]) + tail;
    if c == QUOTE {
      assert text[2..] == tail && text[1] == QUOTE;
    } else {
      assert text[1..] == tail;
    }
  }

  lemma ReadClose(rest: string)
    requires rest == "" || rest[0] != QUOTE
    ensures ReadEscaped([QUOTE] + rest) == Some(Field("", rest))
  {
    var close := [QUOTE] + rest;
    assert close[1..] == rest;
  }

  lemma DoubledFirst(value: string, close: string)
    requires value != ""
    ensures DoubleQuotes(value) + close
      == (if value[0] == QUOTE then [QUOTE, QUOTE] else [value[0]]) + (DoubleQuotes(value[1..]) + close)
  {
  }

  lemma {:induction false} ReadDoubled(value: string, rest: string)
    requires rest == "" || rest[0] != QUOTE
    ensures ReadEscaped(DoubleQuotes(value) + ([QUOTE] + rest)) == Some(Field(value, rest))
  {
    var close := [QUOTE] + rest;
    if value == "" {
      assert DoubleQuotes(value) + close == close;
      ReadClose(rest);
    } else {
      ReadDoubled(value[1..], rest);
      DoubledFirst(value, close);
      ReadOne(value[0], DoubleQuotes(value[1..]) + close);
      assert [value[0]] + value[1..] == value;
    }
  }

  /** Whatever a value holds, its cell reads back as the guarded value. */
  lemma CellReadsBack(value: string, rest: string)
    requires rest == "" || rest[0] != QUOTE
    ensures ReadField(Escape(value) + rest) == Some(Field(Guard(value), rest))
  {
    var text := Escape(value) + rest;
    assert text[1..] == DoubleQuotes(Guard(value)) + ([QUOTE] + rest);
    ReadDoubled(Guard(value), rest);
  }

  lemma {:induction false} LineReadsBack(values: seq<string>, rest: string)
    requires values != [] && (rest == "" || rest[0] == BREAK)
    ensures ReadRecord(Line(values) + rest) == Some(Record(GuardAll(values), rest))
  {
    if |values| == 1 {
      CellReadsBack(values[0], rest);
      assert values[1..] == [];
      assert EscapeAll(values) == [Escape(values[0])];
      assert GuardAll(values) == [Guard(values[0])];
    } else {
      var more := [COMMA] + (Line(values[1..]) + rest);
      assert EscapeAll(values)[1..] == EscapeAll(values[1..]);
      assert Line(values) + rest == Escape(values[0]) + more;
      CellReadsBack(values[0], more);
      assert more[1..] == Line(values[1..]) + rest;
      LineReadsBack(values[1..], rest);
    }
  }

  lemma LineIsNotEmpty(values: seq<string>)
    requires values != []
    ensures Line(values) != ""
  {
    assert EscapeAll(values)[0] == Escape(values[0]);
  }

  lemma {:induction false} GridReadsBack(grid: seq<seq<string>>)
    requires grid != [] && forall i :: 0 <= i < |grid| ==> grid[i] != []
    ensures Read(Join(Lines(grid), BREAK)) == Some(GuardGrid(grid))
  {
    var text := Join(Lines(grid), BREAK);
    if |grid| == 1 {
      LineReadsBack(grid[0], "");
      assert grid[1..] == [];
      assert Lines(grid) == [Line(grid[0])];
      assert Line(grid[0]) + "" == text;
      assert GuardGrid(grid) == [GuardAll(grid[0])];
    } else {
      var below := Join(Lines(grid[1..]), BREAK);
      assert Lines(grid)[1..] == Lines(grid[1..]);
      assert text == Line(grid[0]) + ([BREAK] + below);
      LineReadsBack(grid[0], [BREAK] + below);
      LineIsNotEmpty(grid[1]);
      assert Lines(grid[1..])[0] == Line(grid[1]);
      assert ([BREAK] + below)[1..] == below;
      GridReadsBack(grid[1..]);
    }
  }

  /**
    A reader of the export finds the header, column by column, and one record a lead, in order, with every
    value guarded in its own column.
   */
  lemma ExportReadsBack(leads: seq<Lead>, copy: Copy)
    ensures var file := Read(Export(leads, copy));
      && file.Some? && |file.value| == |leads| + 1
      && IsHeaderOf(file.value[0], copy.columns)
      && forall i :: 0 <= i < |leads| ==> IsRecordOf(file.value[i + 1], leads[i], copy)
  {
    var grid := Grid(leads, copy);
    GridReadsBack(grid);
    var file := GuardGrid(grid);
    HeaderGuarded(copy.columns);
    forall i | 0 <= i < |leads|
      ensures IsRecordOf(file[i + 1], leads[i], copy)
    {
      assert grid[i + 1] == Cells(leads[i], copy);
      CellsGuarded(leads[i], copy);
    }
  }

  lemma HeaderGuarded(c: Columns)
    ensures IsHeaderOf(GuardAll(Header(c)), c)
  {
    var guarded := GuardAll(Header(c));
    assert forall i :: 0 <= i < 9 ==> guarded[i] == Guard(Header(c)[i]);
  }

  lemma CellsGuarded(lead: Lead, copy: Copy)
    ensures IsRecordOf(GuardAll(Cells(lead, copy)), lead, copy)
  {
    var guarded := GuardAll(Cells(lead, copy));
    assert forall i :: 0 <= i < 9 ==> guarded[i] == Guard(Cells(lead, copy)[i]);
  }

  // ----- what guarding does to a value

  /** A value that starts with one of the six characters opens a formula. */
  lemma OpensExactly(value: string)
    ensures OpensFormula(value) <==> value != "" && value[0] in {'=', '+', '-', '@', '\t', '\r'}
  {
  }

  /** No guarded value opens a formula, guarding again does nothing, and only formula openers change. */
  lemma GuardIsSafe(value: string)
    ensures !OpensFormula(Guard(value)) && Guard(Guard(value)) == Guard(value)
    ensures Guard(value) == value <==> !OpensFormula(value)
  {
    if OpensFormula(value) {
      assert |Guard(value)| == |value| + 1;
    }
  }

  /** Two values read back alike exactly when they are equal, or one is the other behind an apostrophe and that other opens a formula. */
  lemma GuardConfuses(a: string, b: string)
    ensures Guard(a) == Guard(b) <==>
      || a == b
      || (OpensFormula(b) && a == "'" + b)
      || (OpensFormula(a) && b == "'" + a)
  {
    if OpensFormula(a) && OpensFormula(b) {
      assert Guard(a)[1..] == a && Guard(b)[1..] == b;
    }
  }

  /** So the export of a cell does not always tell which value it was. */
  lemma ApostropheIsAmbiguous()
    ensures "'=1" != "=1" && Escape("'=1") == Escape("=1")
  {
    GuardConfuses("'=1", "=1");
    assert "'=1" == [APOSTROPHE] + "=1";
  }

  /** Two grids export to the same text exactly when they are equal after guarding. */
  lemma ExportsAgreeExactly(a: seq<seq<string>>, b: seq<seq<string>>)
    requires a != [] && forall i :: 0 <= i < |a| ==> a[i] != []
    requires b != [] && forall i :: 0 <= i < |b| ==> b[i] != []
    ensures Join(Lines(a), BREAK) == Join(Lines(b), BREAK) <==> GuardGrid(a) == GuardGrid(b)
  {
    GridReadsBack(a);
    GridReadsBack(b);
    if GuardGrid(a) == GuardGrid(b) {
      SameLines(a, b);
    }
  }

  lemma {:induction false} SameLines(a: seq<seq<string>>, b: seq<seq<string>>)
    requires GuardGrid(a) == GuardGrid(b)
    ensures Lines(a) == Lines(b)
  {
    if a != [] {
      assert |a| == |GuardGrid(a)| == |GuardGrid(b)| == |b|;
      assert GuardGrid(a)[0] == GuardAll(a[0]) && GuardGrid(b)[0] == GuardAll(b[0]);
      forall i | 0 <= i < |a[0]|
        ensures EscapeAll(a[0])[i] == EscapeAll(b[0])[i]
      {
        assert GuardAll(a[0])[i] == GuardAll(b[0])[i];
      }
      assert |a[0]| == |GuardAll(a[0])| == |b[0]|;
      assert EscapeAll(a[0]) == EscapeAll(b[0]);
      assert GuardGrid(a[1..]) == GuardGrid(a)[1..] && GuardGrid(b[1..]) == GuardGrid(b)[1..];
      SameLines(a[1..], b[1..]);
    }
  }
}
