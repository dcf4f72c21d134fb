/**
 * The table extractor (services/table_extractor.py): it finds table-like
 * blocks in retrieved chunks, reads a financial table's metric columns, and
 * parses one table cell into a number.
 *
 * The three separator regexes (`\s*\|\s*`, `\s{3,}` and `\t+`) are abstract:
 * a `Splitter` maps a separator and a line to `None` when `re.search` finds
 * no match, and otherwise to the pieces `re.split` yields. `float()` is the
 * function `parseFloat`, with `None` standing for `ValueError`. The unit
 * regexes of the cell parser are written out (function `Sub`).
 */
module TableExtractor {
  import opened Wrappers
  import opened PyStr
  import Config
  import Seqs
  import opened VectorStore
  import opened Retrieval

  datatype Separator = PipeSep | SpacesSep | TabSep

  /** The separators, in the order `_detect_table_in_text` tries them. */
  const SEPARATORS: seq<Separator> := [PipeSep, SpacesSep, TabSep]

  type Splitter = (Separator, string) -> Option<seq<string>>

  datatype RowKind = Header | Data
  datatype Row = Row(kind: RowKind, cells: seq<string>)

  /** The dictionary `_detect_table_in_text` returns. */
  datatype Table = Table(rows: seq<Row>, columnCount: nat, rowCount: nat,
                         page: MetaValue, source: MetaValue, metadata: Metadata)

  /** A retrieved `(chunk, score, metadata)` triple. */
  datatype Chunk = Chunk(text: string, score: real, metadata: Metadata)

  /** A cell as it ends up in a table: not empty, no surrounding whitespace. */
  predicate Trimmed(c: string) {
    c != "" && !IsSpace(c[0]) && !IsSpace(c[|c| - 1])
  }

  /** Stripping the pieces and dropping the empty ones leaves trimmed cells. */
  lemma StrippedPiecesTrimmed(pieces: seq<string>)
    ensures forall k :: 0 <= k < |Config.NonEmpty(Config.StripAll(pieces))| ==>
              Trimmed(Config.NonEmpty(Config.StripAll(pieces))[k])
  {
    var stripped := Config.StripAll(pieces);
    forall c | c in stripped && c != "" ensures Trimmed(c) {
      var j :| 0 <= j < |stripped| && stripped[j] == c;
      StripEnds(pieces[j]);
    }
  }

  /** `[c.strip() for c in pieces if c.strip()]` */
  function Cells(pieces: seq<string>): (r: seq<string>)
    ensures forall k :: 0 <= k < |r| ==> Trimmed(r[k])
  {
    StrippedPiecesTrimmed(pieces);
    Config.NonEmpty(Config.StripAll(pieces))
  }

  /** The cells of a stripped line under the first separator, starting at
      `SEPARATORS[j]`, that matches and yields at least two cells. */
  function LineCells(line: string, j: nat, splitter: Splitter): (r: Option<seq<string>>)
    ensures r.Some? ==> GoodCells(r.value)
    decreases |SEPARATORS| - j
  {
    if j >= |SEPARATORS| then None
    else match splitter(SEPARATORS[j], line)
      case Some(pieces) =>
        if |Cells(pieces)| >= 2 then Some(Cells(pieces)) else LineCells(line, j + 1, splitter)
      case None => LineCells(line, j + 1, splitter)
  }

  /** At least two cells, each trimmed. */
  predicate GoodCells(cells: seq<string>) {
    |cells| >= 2 && forall i :: 0 <= i < |cells| ==> Trimmed(cells[i])
  }

  /** A table's row structure: at least two rows, the first is the header,
      all others are data, every row has at least two trimmed cells. */
  predicate WellFormedRows(rows: seq<Row>) {
    && |rows| >= 2
    && rows[0].kind == Header
    && (forall k :: 1 <= k < |rows| ==> rows[k].kind == Data)
    && (forall k :: 0 <= k < |rows| ==> GoodCells(rows[k].cells))
  }

  /** The rows collected from `lines`: every line that is not blank and has
      cells becomes a row, the header when no row was collected before it. */
  function RowsOf(lines: seq<string>, splitter: Splitter): (rows: seq<Row>)
    ensures |rows| <= |lines|
    ensures |rows| > 0 ==> rows[0].kind == Header
    ensures forall k :: 1 <= k < |rows| ==> rows[k].kind == Data
    ensures forall k :: 0 <= k < |rows| ==> GoodCells(rows[k].cells)
  {
    if |lines| == 0 then []
    else
      var prev := RowsOf(lines[..|lines| - 1], splitter);
      var line := Strip(lines[|lines| - 1]);
      if line == "" then prev
      else match LineCells(line, 0, splitter)
        case None => prev
        case Some(cells) => prev + [Row(if |prev| == 0 then Header else Data, cells)]
  }

  /** `metadata.get("page") or metadata.get("page_number")` */
  function PageOf(metadata: Metadata): MetaValue {
    if Truthy(Get(metadata, "page")) then Get(metadata, "page") else Get(metadata, "page_number")
  }

  /** `metadata.get("source", "")` */
  function SourceOf(metadata: Metadata): MetaValue {
    if "source" in metadata then metadata["source"] else MStr("")
  }

  /** What `_detect_table_in_text` answers for a chunk. */
  function DetectedTable(text: string, metadata: Metadata, splitter: Splitter): (t: Option<Table>)
    ensures |Split(text, '\n')| < 3 ==> t == None
    ensures t.Some? ==> WellFormedRows(t.value.rows)
    ensures t.Some? ==> t.value.columnCount == |t.value.rows[0].cells| && t.value.rowCount == |t.value.rows|
    ensures t.Some? ==> t.value.page == PageOf(metadata) && t.value.source == SourceOf(metadata)
                        && t.value.metadata == metadata
  {
    var lines := Split(text, '\n');
    if |lines| < 3 then None
    else
      var rows := RowsOf(lines, splitter);
      if |rows| < 2 then None
      else Some(Table(rows, |rows[0].cells|, |rows|, PageOf(metadata), SourceOf(metadata), metadata))
  }

  /** The separator loop of `_detect_table_in_text` for one stripped line:
      the first separator that matches and yields two cells wins. */
  method FindCells(line: string, splitter: Splitter) returns (cells: Option<seq<string>>)
    ensures cells == LineCells(line, 0, splitter)
  {
    for j := 0 to |SEPARATORS|
      invariant LineCells(line, 0, splitter) == LineCells(line, j, splitter)
    {
      var pieces := splitter(SEPARATORS[j], line);
      LineCellsStep(line, j, splitter);
      if pieces.Some? {
        var found := Cells(pieces.value);
        if |found| >= 2 {
          return Some(found);
        }
      }
    }
    return None;
  }

  /** One separator of the search: it either wins or passes the search on. */
  lemma LineCellsStep(line: string, j: nat, splitter: Splitter)
    requires j < |SEPARATORS|
    ensures var pieces := splitter(SEPARATORS[j], line);
            LineCells(line, j, splitter) ==
              if pieces.Some? && |Cells(pieces.value)| >= 2 then Some(Cells(pieces.value))
              else LineCells(line, j + 1, splitter)
  {
  }

  /** One more line either adds its cells as a row or adds nothing. */
  lemma RowsOfSnoc(lines: seq<string>, i: nat, splitter: Splitter)
    requires i < |lines|
    ensures Strip(lines[i]) == "" || LineCells(Strip(lines[i]), 0, splitter).None? ==>
              RowsOf(lines[..i + 1], splitter) == RowsOf(lines[..i], splitter)
    ensures Strip(lines[i]) != "" && LineCells(Strip(lines[i]), 0, splitter).Some? ==>
              RowsOf(lines[..i + 1], splitter) == RowsOf(lines[..i], splitter)
                + [Row(if |RowsOf(lines[..i], splitter)| == 0 then Header else Data, LineCells(Strip(lines[i]), 0, splitter).value)]
  {
    assert lines[..i + 1][..i] == lines[..i];
    assert lines[..i + 1][i] == lines[i];
  }

  /** The line loop of `_detect_table_in_text`: appends a row for every
      line with cells, flipping `header_found` on the first one. */
  method CollectRows(lines: seq<string>, splitter: Splitter) returns (rows: seq<Row>)
    ensures rows == RowsOf(lines, splitter)
  {
    rows := [];
    var headerFound := false;
    for i := 0 to |lines|
      invariant headerFound <==> |rows| > 0
      invariant rows == RowsOf(lines[..i], splitter)
    {
      RowsOfSnoc(lines, i, splitter);
      var line := Strip(lines[i]);
      if line == "" {
        continue;
      }
      var cells := FindCells(line, splitter);
      if cells.Some? {
        if !headerFound && |rows| == 0 {
          rows := rows + [Row(Header, cells.value)];
          headerFound := true;
        } else {
          rows := rows + [Row(Data, cells.value)];
        }
      }
    }
    assert lines[..|lines|] == lines;
  }

  /** `_detect_table_in_text` */
  method DetectTable(text: string, metadata: Metadata, splitter: Splitter) returns (table: Option<Table>)
    ensures table == DetectedTable(text, metadata, splitter)
  {
    var lines := Split(text, '\n');
    if |lines| < 3 {
      return None;
    }
    var rows := CollectRows(lines, splitter);
    if |rows| >= 2 {
      table := Some(Table(rows, |rows[0].cells|, |rows|, PageOf(metadata), SourceOf(metadata), metadata));
    } else {
      table := None;
    }
  }

  /** What `detect` makes of each chunk, in order. */
  function Detections(content: seq<Chunk>, detect: Chunk -> Option<Table>): (r: seq<Option<Table>>)
    ensures |r| == |content|
  {
    seq(|content|, i requires 0 <= i < |content| => detect(content[i]))
  }

  /** `_detect_table_in_text` on one chunk. */
  function Detector(splitter: Splitter): Chunk -> Option<Table> {
    (c: Chunk) => DetectedTable(c.text, c.metadata, splitter)
  }

  /** The tables found in `content`, one at most per chunk, in order. */
  function Tables(content: seq<Chunk>, splitter: Splitter): seq<Table> {
    Seqs.Present(Detections(content, Detector(splitter)))
  }

  /** One more chunk adds the table found in it, if any. */
  lemma TablesSnoc(content: seq<Chunk>, x: Chunk, splitter: Splitter)
    ensures Tables(content + [x], splitter)
            == Tables(content, splitter) + match DetectedTable(x.text, x.metadata, splitter)
                                           case Some(t) => [t]
                                           case None => []
  {
    var d := Detections(content + [x], Detector(splitter));
    assert d[..|content|] == Detections(content, Detector(splitter));
    assert d[|content|] == DetectedTable(x.text, x.metadata, splitter);
  }

  /** `extract_tables` */
  method ExtractTables(content: seq<Chunk>, splitter: Splitter) returns (tables: seq<Table>)
    ensures tables == Tables(content, splitter)
  {
    tables := [];
    for i := 0 to |content|
      invariant tables == Tables(content[..i], splitter)
    {
      assert content[..i + 1] == content[..i] + [content[i]];
      TablesSnoc(content[..i], content[i], splitter);
      var tableData := DetectTable(content[i].text, content[i].metadata, splitter);
      if tableData.Some? {
        tables := tables + [tableData.value];
      }
    }
    assert content[..|content|] == content;
  }

  // ---------------------------------------------------------------------
  // Cell values

  /** Leftmost alternative of a case-insensitive regex that matches at the
      start of `s`: the length of the text it consumes. */
  function FirstMatch(s: string, alternatives: seq<string>): (n: Option<nat>)
    ensures n.Some? ==> 0 < n.value <= |s|
  {
    if |alternatives| == 0 then None
    else
      var a := alternatives[0];
      if a != "" && |a| <= |s| && Lower(s[..|a|]) == a then Some(|a|)
      else FirstMatch(s, alternatives[1..])
  }

  /** `re.sub(pattern, '', s, flags=re.IGNORECASE)` for a pattern that is a
      list of lower-case alternatives tried in order at each position. */
  function Sub(s: string, alternatives: seq<string>): string
    decreases |s|
  {
    if |s| == 0 then ""
    else match FirstMatch(s, alternatives)
      case Some(n) => Sub(s[n..], alternatives)
      case None => [s[0]] + Sub(s[1..], alternatives)
  }

  /** `[Bb]illion?` and `[Mm]illion?` as the code writes them. */
  const BILLION_AS_WRITTEN: seq<string> := ["billion", "billio"]
  const MILLION_AS_WRITTEN: seq<string> := ["million", "millio"]
  /** The unit suffixes the code means to drop: the word or the bare letter. */
  const BILLION: seq<string> := ["billion", "b"]
  const MILLION: seq<string> := ["million", "m"]
  /** `[Kk]|thousand` */
  const THOUSAND: seq<string> := ["k", "thousand"]

  /** `re.sub(r'[€$£¥]', '', s)` */
  function DropCurrency(s: string): (r: string)
    ensures |r| <= |s|
    decreases |s|
  {
    if |s| == 0 then ""
    else (if IsCurrency(s[0]) then "" else [s[0]]) + DropCurrency(s[1..])
  }

  /** The class `[€$£¥]`. */
  predicate IsCurrency(c: char) {
    c == '€' || c == '$' || c == '£' || c == '¥'
  }

  /** The unit multipliers 1, 1e3, 1e6 and 1e9. */
  datatype Magnitude = Ones | Thousands | Millions | Billions

  /** `x * multiplier` */
  function Times(x: real, m: Magnitude): real {
    match m
    case Ones => x
    case Thousands => x * 1000.0
    case Millions => x * 1000000.0
    case Billions => x * 1000000000.0
  }

  /** `value / 1e6`: an amount in millions. */
  function InMillions(v: real): real {
    v / 1000000.0
  }

  /** The text handed to `float()`, the unit multiplier and whether a `%`
      was seen. */
  datatype Cleaned = Cleaned(text: string, multiplier: Magnitude, percent: bool)

  predicate MentionsBillion(s: string) { 'B' in Upper(s) || Contains(Lower(s), "billion") }
  predicate MentionsMillion(s: string) { 'M' in Upper(s) || Contains(Lower(s), "million") }
  predicate MentionsThousand(s: string) { 'K' in Upper(s) || Contains(Lower(s), "thousand") }

  /** Unit detection: the first of billion, million, thousand whose letter or
      word occurs selects the multiplier and the suffixes to remove. */
  function Scale(s: string, billion: seq<string>, million: seq<string>): (string, Magnitude) {
    if MentionsBillion(s) then (Sub(s, billion), Billions)
    else if MentionsMillion(s) then (Sub(s, million), Millions)
    else if MentionsThousand(s) then (Sub(s, THOUSAND), Thousands)
    else (s, Ones)
  }

  /** The cell without surrounding whitespace, commas and currency symbols,
      with `(` turned into a minus sign and `)` dropped. */
  function Normalised(s: string): string {
    DropCurrency(Replace(Replace(Replace(Strip(s), ',', ""), '(', "-"), ')', ""))
  }

  /** The rewriting of `value_str` before `float()` in `_parse_table_value`,
      for given billion and million suffix patterns. */
  function CleanCell(s: string, billion: seq<string>, million: seq<string>): Cleaned {
    var (scaled, multiplier) := Scale(Normalised(s), billion, million);
    Cleaned(Replace(scaled, '%', ""), multiplier, '%' in scaled)
  }

  /** The number a parsed cell stands for: a percentage as it is, anything
      else in millions; `None` when `float()` failed. */
  function Interpret(parsed: Option<real>, multiplier: Magnitude, percent: bool): (r: Option<real>)
    ensures r.Some? <==> parsed.Some?
  {
    match parsed
    case None => None
    case Some(x) =>
      var value := Times(x, multiplier);
      Some(if percent then value else InMillions(value))
  }

  /** `float()` of the cleaned text, scaled. */
  function ParseCleaned(c: Cleaned, parseFloat: string -> Option<real>): (r: Option<real>)
    ensures r.Some? <==> parseFloat(c.text).Some?
  {
    Interpret(parseFloat(c.text), c.multiplier, c.percent)
  }

  /** `_parse_table_value` as written: a bare `B` or `M` suffix is not removed. */
  function TableValueAsWritten(s: string, parseFloat: string -> Option<real>): (r: Option<real>)
    ensures s == "" ==> r == None
  {
    if s == "" then None else ParseCleaned(CleanCell(s, BILLION_AS_WRITTEN, MILLION_AS_WRITTEN), parseFloat)
  }

  /** `_parse_table_value` with the unit suffix removed as intended. */
  function TableValue(s: string, parseFloat: string -> Option<real>): (r: Option<real>)
    ensures s == "" ==> r == None
  {
    if s == "" then None else ParseCleaned(CleanCell(s, BILLION, MILLION), parseFloat)
  }

  /** The rewriting of `value_str` in `_parse_table_value`, step by step,
      with the suffix patterns as written. */
  method CleanValue(valueStr: string) returns (cleaned: Cleaned)
    ensures cleaned == CleanCell(valueStr, BILLION_AS_WRITTEN, MILLION_AS_WRITTEN)
  {
    var s := Strip(valueStr);
    s := Replace(s, ',', "");
    s := Replace(Replace(s, '(', "-"), ')', "");
    s := DropCurrency(s);
    assert s == Normalised(valueStr);
    var multiplier := Ones;
    if MentionsBillion(s) {
      multiplier := Billions;
      s := Sub(s, BILLION_AS_WRITTEN);
    } else if MentionsMillion(s) {
      multiplier := Millions;
      s := Sub(s, MILLION_AS_WRITTEN);
    } else if MentionsThousand(s) {
      multiplier := Thousands;
      s := Sub(s, THOUSAND);
    }
    var isPercentage := '%' in s;
    s := Replace(s, '%', "");
    cleaned := Cleaned(s, multiplier, isPercentage);
  }

  /** `_parse_table_value` as written. */
  method ParseTableValue(valueStr: string, parseFloat: string -> Option<real>) returns (value: Option<real>)
    ensures value == TableValueAsWritten(valueStr, parseFloat)
  {
    if valueStr == "" {
      return None;
    }
    var cleaned := CleanValue(valueStr);
    var parsed := parseFloat(cleaned.text);
    if parsed.None? {
      return None;
    }
    var v := Times(parsed.value, cleaned.multiplier);
    if cleaned.percent {
      value := Some(v);
    } else {
      value := Some(InMillions(v));
    }
  }

  // ---------------------------------------------------------------------
  // Financial tables

  /** The keywords that make a header a metric column. */
  const KEYWORDS: seq<string> :=
    ["revenue", "sales", "ebitda", "profit", "income", "margin", "growth", "capex", "opex", "cash"]

  predicate IsMetricHeader(header: string) {
    exists k :: 0 <= k < |KEYWORDS| && Contains(Lower(header), KEYWORDS[k])
  }

  /** A parsed cell of a metric column. */
  datatype TableCell = TableCell(period: Option<string>, value: real, rawText: string)
  datatype Metric = Metric(columnIndex: nat, metricName: string, values: seq<TableCell>)

  /** The dictionary `parse_financial_table` returns. */
  datatype FinancialTable = FinancialTable(headers: seq<string>, periods: seq<string>, metrics: seq<Metric>,
                                           source: MetaValue, page: MetaValue)

  /** A table dictionary handed to `parse_financial_table`; `rows` is `None`
      when the key is missing (an empty dictionary included). */
  datatype TableDict = TableDict(rows: Option<seq<Row>>, source: MetaValue, page: MetaValue)

  /** The dictionary `_detect_table_in_text` built, as the parser reads it. */
  function AsDict(t: Table): TableDict {
    TableDict(Some(t.rows), t.source, t.page)
  }

  /** The metric columns, with no values yet: exactly the headers holding a
      keyword, in column order, each named by its header. */
  function MetricColumns(headers: seq<string>): (r: seq<Metric>)
    ensures |r| <= |headers|
    ensures forall j :: 0 <= j < |r| ==>
              r[j].columnIndex < |headers| && IsMetricHeader(headers[r[j].columnIndex])
              && r[j].metricName == headers[r[j].columnIndex] && r[j].values == []
    ensures forall j, k :: 0 <= j < k < |r| ==> r[j].columnIndex < r[k].columnIndex
  {
    if |headers| == 0 then []
    else
      var n := |headers| - 1;
      var prev := MetricColumns(headers[..n]);
      if IsMetricHeader(headers[n]) then prev + [Metric(n, headers[n], [])] else prev
  }

  /** `[r["cells"] for r in rows if r["type"] == "data"]` */
  function DataRows(rows: seq<Row>): (r: seq<seq<string>>)
    ensures |r| <= |rows|
  {
    if |rows| == 0 then []
    else DataRows(rows[..|rows| - 1]) + (if rows[|rows| - 1].kind == Data then [rows[|rows| - 1].cells] else [])
  }

  /** `cells[0] if cells else None` */
  function PeriodOf(cells: seq<string>): Option<string> {
    if |cells| > 0 then Some(cells[0]) else None
  }

  /** What one data row adds to column `col`: its parsed cell, when the
      row has `width` cells and the cell parses. */
  function RowValue(col: nat, cells: seq<string>, width: nat, parseFloat: string -> Option<real>): (r: seq<TableCell>)
    ensures |r| <= 1
    ensures forall k :: 0 <= k < |r| ==> TableValueAsWritten(r[k].rawText, parseFloat) == Some(r[k].value)
  {
    if |cells| == width && col < |cells| && TableValueAsWritten(cells[col], parseFloat).Some? then
      [TableCell(PeriodOf(cells), TableValueAsWritten(cells[col], parseFloat).value, cells[col])]
    else []
  }

  /** The values column `col` collects from the data rows that have `width`
      cells: one per cell that parses, in row order. */
  function ColumnValues(col: nat, rows: seq<seq<string>>, width: nat, parseFloat: string -> Option<real>): (r: seq<TableCell>)
    ensures |r| <= |rows|
    ensures forall k :: 0 <= k < |r| ==> TableValueAsWritten(r[k].rawText, parseFloat) == Some(r[k].value)
  {
    if |rows| == 0 then []
    else ColumnValues(col, rows[..|rows| - 1], width, parseFloat) + RowValue(col, rows[|rows| - 1], width, parseFloat)
  }

  /** The first cells of the accepted data rows that are not empty. */
  function Periods(rows: seq<seq<string>>, width: nat): (r: seq<string>)
    ensures |r| <= |rows|
    ensures forall k :: 0 <= k < |r| ==> r[k] != ""
  {
    if |rows| == 0 then []
    else
      var cells := rows[|rows| - 1];
      Periods(rows[..|rows| - 1], width) + (if |cells| == width && |cells| > 0 && cells[0] != "" then [cells[0]] else [])
  }

  /** Every metric column with the values the data rows give it. */
  function Filled(metrics: seq<Metric>, rows: seq<seq<string>>, width: nat, parseFloat: string -> Option<real>): (r: seq<Metric>)
    ensures |r| == |metrics|
    ensures forall j :: 0 <= j < |r| ==>
              r[j] == metrics[j].(values := ColumnValues(metrics[j].columnIndex, rows, width, parseFloat))
  {
    seq(|metrics|, j requires 0 <= j < |metrics| =>
      metrics[j].(values := ColumnValues(metrics[j].columnIndex, rows, width, parseFloat)))
  }

  /** Every metric column extended by what one more data row gives it. */
  function Extend(metrics: seq<Metric>, cells: seq<string>, width: nat, parseFloat: string -> Option<real>): (r: seq<Metric>)
    ensures |r| == |metrics|
    ensures forall j :: 0 <= j < |r| ==>
              r[j] == metrics[j].(values := metrics[j].values + RowValue(metrics[j].columnIndex, cells, width, parseFloat))
  {
    seq(|metrics|, j requires 0 <= j < |metrics| =>
      metrics[j].(values := metrics[j].values + RowValue(metrics[j].columnIndex, cells, width, parseFloat)))
  }

  /** A row of the wrong width adds nothing. */
  lemma ExtendSkipsRow(metrics: seq<Metric>, cells: seq<string>, width: nat, parseFloat: string -> Option<real>)
    requires |cells| != width
    ensures Extend(metrics, cells, width, parseFloat) == metrics
  {
    forall j | 0 <= j < |metrics| ensures Extend(metrics, cells, width, parseFloat)[j] == metrics[j] {
      assert metrics[j].values + [] == metrics[j].values;
    }
  }

  /** Filling from one more row is extending by that row. */
  lemma FilledSnoc(metrics: seq<Metric>, rows: seq<seq<string>>, i: nat, width: nat, parseFloat: string -> Option<real>)
    requires i < |rows|
    ensures Filled(metrics, rows[..i + 1], width, parseFloat)
            == Extend(Filled(metrics, rows[..i], width, parseFloat), rows[i], width, parseFloat)
  {
    assert rows[..i + 1][..i] == rows[..i];
  }

  /** The per-metric loop of `parse_financial_table` for one accepted row. */
  method AppendRowValues(metrics: seq<Metric>, cells: seq<string>, parseFloat: string -> Option<real>)
    returns (updated: seq<Metric>)
    ensures updated == Extend(metrics, cells, |cells|, parseFloat)
  {
    updated := metrics;
    for j := 0 to |metrics|
      invariant |updated| == |metrics|
      invariant forall m :: 0 <= m < j ==> updated[m] == Extend(metrics, cells, |cells|, parseFloat)[m]
      invariant forall m :: j <= m < |metrics| ==> updated[m] == metrics[m]
    {
      var added := CellValue(updated[j].columnIndex, cells, parseFloat);
      updated := updated[j := updated[j].(values := updated[j].values + added)];
    }
  }

  /** The body of that loop for the metric in column `col`: the row's cell
      there, when it exists and parses, with the row's period. */
  method CellValue(col: nat, cells: seq<string>, parseFloat: string -> Option<real>)
    returns (added: seq<TableCell>)
    ensures added == RowValue(col, cells, |cells|, parseFloat)
  {
    added := [];
    if col < |cells| {
      var valueStr := cells[col];
      var value := ParseTableValue(valueStr, parseFloat);
      if value.Some? {
        added := [TableCell(PeriodOf(cells), value.value, valueStr)];
      }
    }
  }

  /** What `parse_financial_table` answers. */
  function ParsedTable(t: TableDict, parseFloat: string -> Option<real>): (r: Option<FinancialTable>)
    ensures r.None? <==> t.rows.None? || |t.rows.value| < 2 || t.rows.value[0].kind != Header
  {
    if t.rows.None? || |t.rows.value| < 2 || t.rows.value[0].kind != Header then None
    else
      var headers := t.rows.value[0].cells;
      var data := DataRows(t.rows.value);
      Some(FinancialTable(headers, Periods(data, |headers|),
                          Filled(MetricColumns(headers), data, |headers|, parseFloat), t.source, t.page))
  }

  /** The header loop of `parse_financial_table`: one metric per keyword
      column, in column order. */
  method FindMetricColumns(headers: seq<string>) returns (metrics: seq<Metric>)
    ensures metrics == MetricColumns(headers)
  {
    metrics := [];
    for i := 0 to |headers|
      invariant metrics == MetricColumns(headers[..i])
    {
      assert headers[..i + 1][..i] == headers[..i];
      if IsMetricHeader(headers[i]) {
        metrics := metrics + [Metric(i, headers[i], [])];
      }
    }
    assert headers[..|headers|] == headers;
  }

  /** The data-row loop of `parse_financial_table`: rows as wide as the
      header contribute their values and their period. */
  method FillMetrics(base: seq<Metric>, dataRows: seq<seq<string>>, width: nat, parseFloat: string -> Option<real>)
    returns (metrics: seq<Metric>, periods: seq<string>)
    requires forall j :: 0 <= j < |base| ==> base[j].values == []
    ensures metrics == Filled(base, dataRows, width, parseFloat)
    ensures periods == Periods(dataRows, width)
  {
    metrics := base;
    periods := [];
    assert dataRows[..0] == [];
    assert Filled(base, [], width, parseFloat) == base;
    for i := 0 to |dataRows|
      invariant metrics == Filled(base, dataRows[..i], width, parseFloat)
      invariant periods == Periods(dataRows[..i], width)
    {
      assert dataRows[..i + 1][..i] == dataRows[..i];
      FilledSnoc(base, dataRows, i, width, parseFloat);
      var cells := dataRows[i];
      if |cells| != width {
        ExtendSkipsRow(metrics, cells, width, parseFloat);
        continue;
      }
      metrics := AppendRowValues(metrics, cells, parseFloat);
      var period := PeriodOf(cells);
      if period.Some? && period.value != "" {
        periods := periods + [period.value];
      }
    }
    assert dataRows[..|dataRows|] == dataRows;
  }

  /** `parse_financial_table`: finds the metric columns, then walks the data
      rows appending parsed values and periods. */
  method ParseFinancialTable(table: TableDict, parseFloat: string -> Option<real>) returns (parsed: Option<FinancialTable>)
    ensures parsed == ParsedTable(table, parseFloat)
  {
    if table.rows.None? {
      return None;
    }
    var rows := table.rows.value;
    if |rows| < 2 || rows[0].kind != Header {
      return None;
    }
    var headers := rows[0].cells;
    var base := FindMetricColumns(headers);
    var metrics, periods := FillMetrics(base, DataRows(rows), |headers|, parseFloat);
    parsed := Some(FinancialTable(headers, periods, metrics, table.source, table.page));
  }
}

/** Properties of the table extractor's specification functions. */
module TableExtractorFacts {
  import Seqs
  import opened Wrappers
  import opened PyStr
  import Config
  import opened VectorStore
  import opened TableExtractor

  /** Extracting from two batches of chunks is extracting from each in turn:
      tables keep the order of the chunks they come from. */
  lemma TablesAppend(a: seq<Chunk>, b: seq<Chunk>, splitter: Splitter)
    ensures Tables(a + b, splitter) == Tables(a, splitter) + Tables(b, splitter)
  {
    DetectionsAppend(a, b, Detector(splitter));
    Seqs.PresentAppend(Detections(a, Detector(splitter)), Detections(b, Detector(splitter)));
  }

  /** Detection works chunk by chunk, so it distributes over `+`. */
  lemma DetectionsAppend(a: seq<Chunk>, b: seq<Chunk>, detect: Chunk -> Option<Table>)
    ensures Detections(a + b, detect) == Detections(a, detect) + Detections(b, detect)
  {
  }

  /** At most one table comes from each chunk. */
  lemma TablesAtMostOnePerChunk(content: seq<Chunk>, splitter: Splitter)
    ensures |Tables(content, splitter)| <= |content|
  {
    Seqs.PresentAtMost(Detections(content, Detector(splitter)));
  }

  /** Every table found is what `_detect_table_in_text` made of one chunk. */
  lemma TablesComeFromChunks(content: seq<Chunk>, splitter: Splitter, k: nat)
    requires k < |Tables(content, splitter)|
    ensures exists i :: 0 <= i < |content|
              && DetectedTable(content[i].text, content[i].metadata, splitter) == Some(Tables(content, splitter)[k])
  {
    Seqs.PresentFrom(Detections(content, Detector(splitter)), k);
  }

  /** Every table found has a header row followed by data rows, all of at
      least two trimmed cells. */
  lemma TablesWellFormed(content: seq<Chunk>, splitter: Splitter)
    ensures forall k :: 0 <= k < |Tables(content, splitter)| ==> WellFormedRows(Tables(content, splitter)[k].rows)
  {
    forall k | 0 <= k < |Tables(content, splitter)|
      ensures WellFormedRows(Tables(content, splitter)[k].rows)
    {
      TablesComeFromChunks(content, splitter, k);
    }
  }

  /** Every header that holds a keyword becomes a metric column. */
  lemma {:induction false} MetricColumnsComplete(headers: seq<string>, i: nat)
    requires i < |headers| && IsMetricHeader(headers[i])
    ensures exists j :: 0 <= j < |MetricColumns(headers)| && MetricColumns(headers)[j].columnIndex == i
    decreases |headers|
  {
    var n := |headers| - 1;
    if i < n {
      assert headers[..n][i] == headers[i];
      MetricColumnsComplete(headers[..n], i);
      var j :| 0 <= j < |MetricColumns(headers[..n])| && MetricColumns(headers[..n])[j].columnIndex == i;
      assert MetricColumns(headers)[j] == MetricColumns(headers[..n])[j];
    } else {
      var r := MetricColumns(headers);
      assert r[|r| - 1].columnIndex == i;
    }
  }

  /** A table `_detect_table_in_text` returns always parses: its header row
      becomes the headers, and its source and page are carried over. */
  lemma DetectedTableParses(text: string, metadata: Metadata, splitter: Splitter, parseFloat: string -> Option<real>)
    requires DetectedTable(text, metadata, splitter).Some?
    ensures var t := DetectedTable(text, metadata, splitter).value;
            && ParsedTable(AsDict(t), parseFloat).Some?
            && ParsedTable(AsDict(t), parseFloat).value.headers == t.rows[0].cells
            && ParsedTable(AsDict(t), parseFloat).value.source == SourceOf(metadata)
            && ParsedTable(AsDict(t), parseFloat).value.page == PageOf(metadata)
  {
  }

  // ---------------------------------------------------------------------
  // Cell values

  /** Digits, decimal points and minus signs only. */
  predicate Plain(x: string) {
    forall i :: 0 <= i < |x| ==> ('0' <= x[i] <= '9') || x[i] == '.' || x[i] == '-'
  }

  /** A decimal numeral such as `2.5`. */
  predicate Numeral(d: string) {
    forall i :: 0 <= i < |d| ==> ('0' <= d[i] <= '9') || d[i] == '.'
  }

  /** Patterns whose alternatives all start with a lower-case letter. */
  predicate LetterPattern(alternatives: seq<string>) {
    forall k :: 0 <= k < |alternatives| && alternatives[k] != "" ==> 'a' <= alternatives[k][0] <= 'z'
  }

  /** No alternative of a letter pattern matches at a character that is not a letter. */
  lemma {:induction false} NoMatchAtNonLetter(s: string, alternatives: seq<string>)
    requires |s| > 0 && !('a' <= LowerChar(s[0]) <= 'z') && LetterPattern(alternatives)
    ensures FirstMatch(s, alternatives) == None
    decreases |alternatives|
  {
    if |alternatives| > 0 {
      var a := alternatives[0];
      if a != "" && |a| <= |s| {
        assert Lower(s[..|a|])[0] == LowerChar(s[0]);
        assert Lower(s[..|a|])[0] != a[0];
      }
      NoMatchAtNonLetter(s, alternatives[1..]);
    }
  }

  /** A letter pattern leaves a plain prefix alone. */
  lemma {:induction false} SubKeepsPlainPrefix(d: string, t: string, alternatives: seq<string>)
    requires Plain(d) && LetterPattern(alternatives)
    ensures Sub(d + t, alternatives) == d + Sub(t, alternatives)
    decreases |d|
  {
    if |d| == 0 {
      assert d + t == t;
    } else {
      NoMatchAtNonLetter(d + t, alternatives);
      SubKeepsPlainPrefix(d[1..], t, alternatives);
      assert (d + t)[1..] == d[1..] + t;
    }
  }

  /** A plain text mentions no unit. */
  lemma PlainHasNoUnit(x: string)
    requires Plain(x)
    ensures !MentionsBillion(x) && !MentionsMillion(x) && !MentionsThousand(x)
  {
    if Contains(Lower(x), "billion") {
      ContainsHasChars(Lower(x), "billion", 0);
    }
    if Contains(Lower(x), "million") {
      ContainsHasChars(Lower(x), "million", 0);
    }
    if Contains(Lower(x), "thousand") {
      ContainsHasChars(Lower(x), "thousand", 0);
    }
  }

  /** The characters of a numeral with a unit letter or `%`. */
  predicate CellChar(c: char) {
    ('0' <= c <= '9') || c == '.' || c == 'B' || c == 'M' || c == 'K' || c == '%'
  }

  /** A text without currency symbols keeps its characters. */
  lemma {:induction false} NoCurrency(x: string)
    requires forall i :: 0 <= i < |x| ==> !IsCurrency(x[i])
    ensures DropCurrency(x) == x
    decreases |x|
  {
    if |x| > 0 {
      NoCurrency(x[1..]);
    }
  }

  /** A text without surrounding whitespace, commas and parentheses keeps its
      characters. */
  lemma NoPunctuation(x: string)
    requires x != "" && !IsSpace(x[0]) && !IsSpace(x[|x| - 1])
    requires ',' !in x && '(' !in x && ')' !in x
    ensures Replace(Replace(Replace(Strip(x), ',', ""), '(', "-"), ')', "") == x
  {
    Config.StripTrimmed(x);
    ReplaceAbsent(x, ',', "");
    ReplaceAbsent(x, '(', "-");
    ReplaceAbsent(x, ')', "");
  }

  /** A text of such characters passes the formatting removal unchanged. */
  lemma NormalisedKeeps(x: string)
    requires x != "" && forall i :: 0 <= i < |x| ==> CellChar(x[i])
    ensures Normalised(x) == x
  {
    assert CellChar(x[0]) && CellChar(x[|x| - 1]);
    NoPunctuation(x);
    NoCurrency(x);
  }

  /** A numeral followed by one more such character is made of such characters. */
  lemma NumeralThen(d: string, u: string)
    requires Numeral(d) && |u| == 1 && CellChar(u[0])
    ensures forall i :: 0 <= i < |d + u| ==> CellChar((d + u)[i])
    ensures '%' !in d && 'B' !in d && 'M' !in d
  {
    assert forall i :: 0 <= i < |d| ==> (d + u)[i] == d[i];
  }

  /** Upper-casing leaves digits, `.`, `%` and the unit letters alone. */
  lemma UpperKeeps(x: string)
    requires forall i :: 0 <= i < |x| ==> CellChar(x[i])
    ensures Upper(x) == x
  {
    assert forall i :: 0 <= i < |x| ==> Upper(x)[i] == x[i];
  }

  /** Such a text spells none of the unit words. */
  lemma NoUnitWord(x: string)
    requires forall i :: 0 <= i < |x| ==> CellChar(x[i])
    ensures !Contains(Lower(x), "billion") && !Contains(Lower(x), "million") && !Contains(Lower(x), "thousand")
  {
    assert forall i :: 0 <= i < |x| ==> Lower(x)[i] != 'i' && Lower(x)[i] != 't';
    if Contains(Lower(x), "billion") {
      ContainsHasChars(Lower(x), "billion", 1);
    }
    if Contains(Lower(x), "million") {
      ContainsHasChars(Lower(x), "million", 1);
    }
    if Contains(Lower(x), "thousand") {
      ContainsHasChars(Lower(x), "thousand", 0);
    }
  }

  /** A `B` suffix selects billions; the billion pattern decides what is left. */
  lemma ScaleBillionSuffix(d: string, billion: seq<string>, million: seq<string>)
    requires Numeral(d) && LetterPattern(billion)
    ensures Scale(d + "B", billion, million) == (d + Sub("B", billion), Billions)
  {
    assert Upper(d + "B")[|d|] == 'B';
    assert Plain(d);
    SubKeepsPlainPrefix(d, "B", billion);
  }

  /** An `M` suffix selects millions; the million pattern decides what is left. */
  lemma ScaleMillionSuffix(d: string, billion: seq<string>, million: seq<string>)
    requires Numeral(d) && LetterPattern(million)
    ensures Scale(d + "M", billion, million) == (d + Sub("M", million), Millions)
  {
    NumeralThen(d, "M");
    UpperKeeps(d + "M");
    NoUnitWord(d + "M");
    assert Upper(d + "M")[|d|] == 'M';
    assert Plain(d);
    SubKeepsPlainPrefix(d, "M", million);
  }

  /** A `K` suffix selects thousands and is removed. */
  lemma ScaleThousandSuffix(d: string, billion: seq<string>, million: seq<string>)
    requires Numeral(d)
    ensures Scale(d + "K", billion, million) == (d, Thousands)
  {
    NumeralThen(d, "K");
    UpperKeeps(d + "K");
    NoUnitWord(d + "K");
    assert Upper(d + "K")[|d|] == 'K';
    assert Plain(d);
    SubKeepsPlainPrefix(d, "K", THOUSAND);
    UnitLettersRemoved();
    assert d + "" == d;
  }

  /** A percent sign selects no unit. */
  lemma ScalePercent(d: string, billion: seq<string>, million: seq<string>)
    requires Numeral(d)
    ensures Scale(d + "%", billion, million) == (d + "%", Ones)
  {
    NumeralThen(d, "%");
    UpperKeeps(d + "%");
    NoUnitWord(d + "%");
  }

  /** The unit letters on their own, against the unit patterns. */
  lemma UnitLettersRemoved()
    ensures Sub("B", BILLION) == "" && Sub("M", MILLION) == "" && Sub("K", THOUSAND) == ""
    ensures Sub("B", BILLION_AS_WRITTEN) == "B" && Sub("M", MILLION_AS_WRITTEN) == "M"
  {
    assert Lower("B"[..1]) == "b";
    assert Lower("M"[..1]) == "m";
    assert Lower("K"[..1]) == "k";
    assert FirstMatch("B", BILLION) == Some(1);
    assert FirstMatch("M", MILLION) == Some(1);
    assert FirstMatch("K", THOUSAND) == Some(1);
    assert FirstMatch("B", BILLION_AS_WRITTEN) == None;
    assert FirstMatch("M", MILLION_AS_WRITTEN) == None;
  }

  /** The unit patterns are letter patterns. */
  lemma UnitPatternsAreLetters()
    ensures LetterPattern(BILLION) && LetterPattern(MILLION) && LetterPattern(THOUSAND)
    ensures LetterPattern(BILLION_AS_WRITTEN) && LetterPattern(MILLION_AS_WRITTEN)
  {
  }

  /** A cell the formatting removal keeps is cleaned to its scaled text. */
  lemma CleanCellOf(x: string, billion: seq<string>, million: seq<string>, scaled: string, m: Magnitude)
    requires x != "" && forall i :: 0 <= i < |x| ==> CellChar(x[i])
    requires Scale(x, billion, million) == (scaled, m) && '%' !in scaled
    ensures CleanCell(x, billion, million) == Cleaned(scaled, m, false)
  {
    NormalisedKeeps(x);
    ReplaceAbsent(scaled, '%', "");
  }

  /** What a cleaned cell is worth once `float()` reads its text as `v`: a
      percentage as it is, anything else times its multiplier, in millions. */
  lemma CleanedValues(t: string, parseFloat: string -> Option<real>, v: real)
    requires parseFloat(t) == Some(v)
    ensures ParseCleaned(Cleaned(t, Billions, false), parseFloat) == Some(v * 1000.0)
    ensures ParseCleaned(Cleaned(t, Millions, false), parseFloat) == Some(v)
    ensures ParseCleaned(Cleaned(t, Thousands, false), parseFloat) == Some(v / 1000.0)
    ensures ParseCleaned(Cleaned(t, Ones, false), parseFloat) == Some(v / 1000000.0)
    ensures ParseCleaned(Cleaned(t, Ones, true), parseFloat) == Some(v)
  {
  }

  /** As intended: `2.5B` is cleaned to `2.5` in billions. */
  lemma BillionSuffixCleaned(d: string)
    requires Numeral(d)
    ensures CleanCell(d + "B", BILLION, MILLION) == Cleaned(d, Billions, false)
  {
    NumeralThen(d, "B");
    UnitLettersRemoved();
    UnitPatternsAreLetters();
    ScaleBillionSuffix(d, BILLION, MILLION);
    assert d + "" == d;
    CleanCellOf(d + "B", BILLION, MILLION, d, Billions);
  }

  /** As intended: `2.5M` is cleaned to `2.5` in millions. */
  lemma MillionSuffixCleaned(d: string)
    requires Numeral(d)
    ensures CleanCell(d + "M", BILLION, MILLION) == Cleaned(d, Millions, false)
  {
    NumeralThen(d, "M");
    UnitLettersRemoved();
    UnitPatternsAreLetters();
    ScaleMillionSuffix(d, BILLION, MILLION);
    assert d + "" == d;
    CleanCellOf(d + "M", BILLION, MILLION, d, Millions);
  }

  /** `2.5K` is cleaned to `2.5` in thousands, whatever the billion and
      million patterns. */
  lemma ThousandSuffixCleaned(d: string, billion: seq<string>, million: seq<string>)
    requires Numeral(d)
    ensures CleanCell(d + "K", billion, million) == Cleaned(d, Thousands, false)
  {
    NumeralThen(d, "K");
    ScaleThousandSuffix(d, billion, million);
    CleanCellOf(d + "K", billion, million, d, Thousands);
  }

  /** A bare `2.5` is cleaned to itself, in units. */
  lemma BareNumeralCleaned(d: string, billion: seq<string>, million: seq<string>)
    requires d != "" && Numeral(d)
    ensures CleanCell(d, billion, million) == Cleaned(d, Ones, false)
  {
    assert forall i :: 0 <= i < |d| ==> CellChar(d[i]);
    assert Plain(d);
    PlainHasNoUnit(d);
    assert '%' !in d;
    CleanCellOf(d, billion, million, d, Ones);
  }

  /** `2.5%` is cleaned to `2.5`, marked as a percentage. */
  lemma PercentCleaned(d: string, billion: seq<string>, million: seq<string>)
    requires Numeral(d)
    ensures CleanCell(d + "%", billion, million) == Cleaned(d, Ones, true)
  {
    NumeralThen(d, "%");
    NormalisedKeeps(d + "%");
    ScalePercent(d, billion, million);
    ReplaceAppend(d, "%", '%', "");
    ReplaceAbsent(d, '%', "");
    assert (d + "%")[|d|] == '%';
  }

  /** As intended: a numeral with a `B`, `M` or `K` suffix or none is read
      in millions with the suffix's multiplier: `2.5B` is 2500, `2.5M` is
      2.5, `2.5K` is 0.0025 and a bare `2.5` is 0.0000025. */
  lemma UnitSuffixScales(d: string, parseFloat: string -> Option<real>, v: real)
    requires d != "" && Numeral(d) && parseFloat(d) == Some(v)
    ensures TableValue(d + "B", parseFloat) == Some(v * 1000.0)
    ensures TableValue(d + "M", parseFloat) == Some(v)
    ensures TableValue(d + "K", parseFloat) == Some(v / 1000.0)
    ensures TableValue(d, parseFloat) == Some(v / 1000000.0)
  {
    CleanedValues(d, parseFloat, v);
    BillionSuffixCleaned(d);
    MillionSuffixCleaned(d);
    ThousandSuffixCleaned(d, BILLION, MILLION);
    BareNumeralCleaned(d, BILLION, MILLION);
  }

  /** A percentage is returned as written, not converted to millions, by
      the code as written and as intended alike. */
  lemma PercentKeptAsIs(d: string, parseFloat: string -> Option<real>, v: real)
    requires Numeral(d) && parseFloat(d) == Some(v)
    ensures TableValueAsWritten(d + "%", parseFloat) == Some(v)
    ensures TableValue(d + "%", parseFloat) == Some(v)
  {
    CleanedValues(d, parseFloat, v);
    PercentCleaned(d, BILLION_AS_WRITTEN, MILLION_AS_WRITTEN);
    PercentCleaned(d, BILLION, MILLION);
  }

  /** As written, the suffixes the patterns do handle: `2.5K` is 0.0025 and a
      bare `2.5` is 0.0000025 (in millions), while `2.5B` and `2.5M` reach
      `float()` with their letter still on. */
  lemma AsWrittenSuffixValues(d: string, parseFloat: string -> Option<real>, v: real)
    requires d != "" && Numeral(d) && parseFloat(d) == Some(v)
    ensures TableValueAsWritten(d + "K", parseFloat) == Some(v / 1000.0)
    ensures TableValueAsWritten(d, parseFloat) == Some(v / 1000000.0)
    ensures TableValueAsWritten(d + "B", parseFloat) == Interpret(parseFloat(d + "B"), Billions, false)
    ensures TableValueAsWritten(d + "M", parseFloat) == Interpret(parseFloat(d + "M"), Millions, false)
  {
    CleanedValues(d, parseFloat, v);
    ThousandSuffixCleaned(d, BILLION_AS_WRITTEN, MILLION_AS_WRITTEN);
    BareNumeralCleaned(d, BILLION_AS_WRITTEN, MILLION_AS_WRITTEN);
    BareSuffixSurvives(d, parseFloat);
  }

  /** `(` becomes a minus sign. */
  lemma OpenParenReplaced(d: string)
    requires Numeral(d)
    ensures Replace("(" + d + ")", '(', "-") == "-" + d + ")"
  {
    assert "(" + d + ")" == "(" + (d + ")");
    ReplaceAppend("(", d + ")", '(', "-");
    ClosedNumeralKept(d);
    assert Replace("(", '(', "-") == "-";
  }

  /** `d)` has no `(`. */
  lemma ClosedNumeralKept(d: string)
    requires Numeral(d)
    ensures Replace(d + ")", '(', "-") == d + ")"
  {
    assert forall i :: 0 <= i < |d| ==> (d + ")")[i] == d[i];
    ReplaceAbsent(d + ")", '(', "-");
  }

  /** `)` is dropped. */
  lemma CloseParenDropped(d: string)
    requires Numeral(d)
    ensures Replace("-" + d + ")", ')', "") == "-" + d
  {
    ReplaceAppend("-" + d, ")", ')', "");
    assert forall i :: 0 <= i < |d| ==> ("-" + d)[i + 1] == d[i];
    ReplaceAbsent("-" + d, ')', "");
    assert Replace(")", ')', "") == "";
  }

  /** `(d)` has no surrounding whitespace and no commas. */
  lemma ParenthesisedKept(d: string)
    requires Numeral(d)
    ensures Replace(Strip("(" + d + ")"), ',', "") == "(" + d + ")"
  {
    var x := "(" + d + ")";
    Config.StripTrimmed(x);
    assert forall i :: 0 <= i < |d| ==> x[i + 1] == d[i];
    ReplaceAbsent(x, ',', "");
  }

  /** `-d` has no currency symbol. */
  lemma NegatedKept(d: string)
    requires Numeral(d)
    ensures DropCurrency("-" + d) == "-" + d
  {
    var y := "-" + d;
    assert forall i :: 0 <= i < |d| ==> y[i + 1] == d[i];
    NoCurrency(y);
  }

  /** The formatting removal turns `(d)` into `-d`. */
  lemma ParenthesesNormalised(d: string)
    requires Numeral(d)
    ensures Normalised("(" + d + ")") == "-" + d
  {
    ParenthesisedKept(d);
    OpenParenReplaced(d);
    CloseParenDropped(d);
    NegatedKept(d);
  }

  /** Accounting notation: `(d)` is handed to `float()` as `-d`. */
  lemma ParenthesesNegate(d: string, billion: seq<string>, million: seq<string>)
    requires Numeral(d)
    ensures CleanCell("(" + d + ")", billion, million) == Cleaned("-" + d, Ones, false)
  {
    ParenthesesNormalised(d);
    var y := "-" + d;
    assert Plain(y);
    PlainHasNoUnit(y);
    ReplaceAbsent(y, '%', "");
  }

  /** As written, `[Bb]illion?` and `[Mm]illion?` need the letters `illio`,
      so a bare `B` or `M` suffix is still there when `float()` runs:
      `2.5B` reaches it as `2.5B`, which it rejects, and the cell is lost. */
  lemma BareSuffixSurvives(d: string, parseFloat: string -> Option<real>)
    requires Numeral(d)
    ensures CleanCell(d + "B", BILLION_AS_WRITTEN, MILLION_AS_WRITTEN) == Cleaned(d + "B", Billions, false)
    ensures CleanCell(d + "M", BILLION_AS_WRITTEN, MILLION_AS_WRITTEN) == Cleaned(d + "M", Millions, false)
    ensures parseFloat(d + "B") == None ==> TableValueAsWritten(d + "B", parseFloat) == None
  {
    UnitLettersRemoved();
    UnitPatternsAreLetters();
    NumeralThen(d, "B");
    ScaleBillionSuffix(d, BILLION_AS_WRITTEN, MILLION_AS_WRITTEN);
    CleanCellOf(d + "B", BILLION_AS_WRITTEN, MILLION_AS_WRITTEN, d + "B", Billions);
    NumeralThen(d, "M");
    ScaleMillionSuffix(d, BILLION_AS_WRITTEN, MILLION_AS_WRITTEN);
    CleanCellOf(d + "M", BILLION_AS_WRITTEN, MILLION_AS_WRITTEN, d + "M", Millions);
  }

}
