/**
 * Tables of a publication (apps/api-rust/src/publish.rs): segments of bounded pages with incremental
 * dictionaries, and the bounded page reader. The plain form is the decoded table.
 */
module Paging {
  import opened Common
  import opened Windows

  const MAX_PAGE_LIMIT: nat := 1000
  const JOURNAL_DICTIONARY_COLUMNS := {"scenario", "account", "event", "gl_account", "instrument_id"}

  datatype Cell = Number(n: nat) | Label(s: string) | Value(v: int)
  type Columns = map<string, seq<Cell>>
  datatype Row = Row(cells: map<string, Cell>)

  /** One table line of the stream: plain rows, or columns with the dictionary entries it adds. */
  datatype Line = RowsLine(rows: seq<Row>) | ColumnsLine(columns: Columns, dictionary: Option<Dictionary>)

  /** The object of a page, or of a whole line. */
  datatype Payload = RowPayload(rows: seq<Row>) | ColumnPayload(columns: Columns)

  // ---------------------------------------------------------------- decoding a payload

  predicate Rectangular(columns: Columns, count: nat) {
    forall name :: name in columns ==> |columns[name]| == count
  }

  predicate Fits(payload: Payload, rows: nat) {
    match payload case RowPayload(r) => |r| == rows case ColumnPayload(columns) => Rectangular(columns, rows)
  }

  predicate Coded(journal: bool, name: string) { journal && name in JOURNAL_DICTIONARY_COLUMNS }

  function DecodeCell(coded: bool, dictionary: Option<Dictionary>, cell: Cell): Option<Cell> {
    if coded && dictionary.Some? then
      if cell.Number? && cell.n < |dictionary.value| then Some(Label(dictionary.value[cell.n])) else None
    else Some(cell)
  }

  /** Row k of the columns; nothing if an index is out of range. */
  function DecodeRow(columns: Columns, k: nat, journal: bool, dictionary: Option<Dictionary>): Option<Row>
    requires forall name :: name in columns ==> k < |columns[name]|
  {
    if forall name | name in columns :: DecodeCell(Coded(journal, name), dictionary, columns[name][k]).Some?
    then Some(Row(map name | name in columns :: DecodeCell(Coded(journal, name), dictionary, columns[name][k]).value))
    else None
  }

  function ColumnRows(columns: Columns, count: nat, journal: bool,
                      dictionary: Option<Dictionary>): (r: seq<Option<Row>>)
    requires Rectangular(columns, count)
    ensures |r| == count && forall k :: 0 <= k < count ==> r[k] == DecodeRow(columns, k, journal, dictionary)
  {
    seq(count, k requires 0 <= k < count => DecodeRow(columns, k, journal, dictionary))
  }

  /** The rows of a payload; without a dictionary, coded cells are left as they are. */
  function RowsOf(payload: Payload, rows: nat, journal: bool, dictionary: Option<Dictionary>): (r: seq<Option<Row>>)
    requires Fits(payload, rows)
    ensures |r| == rows
  {
    match payload
    case RowPayload(r) => Plain(r)
    case ColumnPayload(columns) => ColumnRows(columns, rows, journal, dictionary)
  }

  function PageDecoding(journal: bool): Decoding<Payload, Row> {
    dictionary => (payload, rows: nat) => if Fits(payload, rows) then Some(RowsOf(payload, rows, journal, dictionary)) else None
  }

  // ---------------------------------------------------------------- the decoded table

  /** The number of rows: the length of any column, none without columns. */
  ghost function Count(columns: Columns): nat {
    if columns == map[] then 0 else var name :| name in columns; |columns[name]|
  }

  ghost function LineCount(line: Line): nat { if line.RowsLine? then |line.rows| else Count(line.columns) }

  function Whole(line: Line): Payload { if line.RowsLine? then RowPayload(line.rows) else ColumnPayload(line.columns) }

  function DictionaryOf(line: Line): Option<Dictionary> { if line.ColumnsLine? then line.dictionary else None }

  ghost predicate WellFormed(line: Line) { Fits(Whole(line), LineCount(line)) }

  ghost predicate AllWellFormed(lines: seq<Line>) {
    lines == [] || (WellFormed(lines[0]) && AllWellFormed(lines[1..]))
  }

  /** The entries known after a line. */
  function More(line: Line, entries: Dictionary): Dictionary {
    if DictionaryOf(line).Some? then entries + DictionaryOf(line).value else entries
  }

  /** The rows of one line as the reader decodes them: a line without a dictionary is left coded. */
  ghost function LineRows(line: Line, journal: bool, entries: Dictionary): seq<Option<Row>>
    requires WellFormed(line)
  {
    RowsOf(Whole(line), LineCount(line), journal, if DictionaryOf(line).Some? then Some(More(line, entries)) else None)
  }

  /** The rows of one line as its indices mean: into all entries added so far. */
  ghost function MeantRows(line: Line, journal: bool, entries: Dictionary): seq<Option<Row>>
    requires WellFormed(line)
  {
    RowsOf(Whole(line), LineCount(line), journal, Some(More(line, entries)))
  }

  /** The whole table in reading order; line k is decoded with dictionaries 0 to k. */
  ghost function Table(lines: seq<Line>, journal: bool, entries: Dictionary): seq<Option<Row>>
    requires AllWellFormed(lines)
  {
    if lines == [] then []
    else LineRows(lines[0], journal, entries) + Table(lines[1..], journal, More(lines[0], entries))
  }

  ghost function MeantTable(lines: seq<Line>, journal: bool, entries: Dictionary): seq<Option<Row>>
    requires AllWellFormed(lines)
  {
    if lines == [] then []
    else MeantRows(lines[0], journal, entries) + MeantTable(lines[1..], journal, More(lines[0], entries))
  }

  ghost function Total(lines: seq<Line>): nat { if lines == [] then 0 else LineCount(lines[0]) + Total(lines[1..]) }

  // ---------------------------------------------------------------- the written layout

  /** Rows lo to hi - 1 of every column, as far as they exist. */
  function Slice(columns: Columns, lo: nat, hi: nat): Columns {
    map name | name in columns :: Window(columns[name], lo, hi)
  }

  function Cut(payload: Payload): Cutter<Payload> {
    (lo: nat, hi: nat) => match payload
      case RowPayload(rows) => RowPayload(Window(rows, lo, hi))
      case ColumnPayload(columns) => ColumnPayload(Slice(columns, lo, hi))
  }

  /** The pages of a line; a columns line without rows still has one, empty, page. */
  function PagesOf(payload: Payload, rows: nat, offset: nat): seq<Page<Payload>> {
    if payload.ColumnPayload? && rows == 0 then [Page(offset, 0, Cut(payload)(0, 0))]
    else PagesFrom(rows, Cut(payload), offset, 0)
  }

  ghost function SegmentOf(line: Line, offset: nat): Segment<Payload> {
    Segment(offset, LineCount(line), DictionaryOf(line), PagesOf(Whole(line), LineCount(line), offset))
  }

  ghost function SegmentsOf(lines: seq<Line>, offset: nat): seq<Segment<Payload>> {
    if lines == [] then [] else [SegmentOf(lines[0], offset)] + SegmentsOf(lines[1..], offset + LineCount(lines[0]))
  }

  // ---------------------------------------------------------------- writing

  method CountRows(columns: Columns) returns (r: Result<nat, Refusal>)
    ensures r == if Rectangular(columns, Count(columns)) then Ok(Count(columns)) else Refused(StreamLayout)
  {
    var count := 0;
    if columns != map[] {
      var name :| name in columns;
      count := |columns[name]|;
    }
    if exists name :: name in columns && |columns[name]| != count { return Refused(StreamLayout); }
    r := Ok(count);
  }

  method WritePages(payload: Payload, rows: nat, offset: nat) returns (pages: seq<Page<Payload>>)
    ensures pages == PagesOf(payload, rows, offset)
  {
    pages := [];
    if payload.ColumnPayload? && rows == 0 { return [Page(offset, 0, Cut(payload)(0, 0))]; }
    var start: nat := 0;
    while start < rows
      invariant pages + PagesFrom(rows, Cut(payload), offset, start) == PagesFrom(rows, Cut(payload), offset, 0)
    {
      var end := if start + PAGE_ROWS < rows then start + PAGE_ROWS else rows;
      var p := Page(offset + start, end - start, Cut(payload)(start, end));
      Associative(pages, [p], PagesFrom(rows, Cut(payload), offset, start + PAGE_ROWS));
      pages := pages + [p];
      start := start + PAGE_ROWS;
    }
  }

  /** Writes one line's segment, page by page. */
  method WriteSegment(line: Line, offset: nat) returns (r: Result<Segment<Payload>, Refusal>)
    ensures r == if WellFormed(line) then Ok(SegmentOf(line, offset)) else Refused(StreamLayout)
  {
    match line {
      case RowsLine(rows) =>
        var pages := WritePages(RowPayload(rows), |rows|, offset);
        r := Ok(Segment(offset, |rows|, None, pages));
      case ColumnsLine(columns, dictionary) =>
        var counted := CountRows(columns);
        if counted.Refused? { return Refused(counted.error); }
        var pages := WritePages(ColumnPayload(columns), counted.value, offset);
        r := Ok(Segment(offset, counted.value, dictionary, pages));
    }
  }

  /** What writing the rest of a table after these segments gives. */
  ghost function Continued(segments: seq<Segment<Payload>>, rest: seq<Line>, offset: nat)
    : Result<(seq<Segment<Payload>>, nat), Refusal>
    decreases |rest|
  {
    if rest == [] then Ok((segments, offset))
    else if !WellFormed(rest[0]) then Refused(StreamLayout)
    else var s := SegmentOf(rest[0], offset); Continued(segments + [s], rest[1..], offset + s.rows)
  }

  /** The segments of a well-formed table are laid out in order, and their rows add up; any ragged line refuses it. */
  lemma {:induction false} ContinuedIs(segments: seq<Segment<Payload>>, rest: seq<Line>, offset: nat)
    ensures Continued(segments, rest, offset)
         == if AllWellFormed(rest) then Ok((segments + SegmentsOf(rest, offset), offset + Total(rest)))
            else Refused(StreamLayout)
    decreases |rest|
  {
    if rest == [] {
      assert segments + [] == segments;
    } else if WellFormed(rest[0]) {
      var s := SegmentOf(rest[0], offset);
      ContinuedIs(segments + [s], rest[1..], offset + s.rows);
      Associative(segments, [s], SegmentsOf(rest[1..], offset + s.rows));
    }
  }

  /** Writes every line of one table, in order. It refuses exactly the tables with ragged columns. */
  method WriteTable(lines: seq<Line>) returns (r: Result<(seq<Segment<Payload>>, nat), Refusal>)
    ensures r == if AllWellFormed(lines) then Ok((SegmentsOf(lines, 0), Total(lines))) else Refused(StreamLayout)
  {
    var segments, rest := [], lines;
    var offset: nat := 0;
    ContinuedIs([], lines, 0);
    while rest != []
      invariant Continued(segments, rest, offset) == Continued([], lines, 0)
      decreases |rest|
    {
      var segment := WriteSegment(rest[0], offset);
      if segment.Refused? { return Refused(segment.error); }
      segments := segments + [segment.value];
      offset := offset + segment.value.rows;
      rest := rest[1..];
    }
    assert [] + SegmentsOf(lines, 0) == SegmentsOf(lines, 0);
    r := Ok((segments, offset));
  }

  // ---------------------------------------------------------------- reading

  /** Reads rows lo to hi - 1 of one page object. */
  method ReadPage(payload: Payload, rows: nat, lo: nat, hi: nat, journal: bool, dictionary: Option<Dictionary>)
    returns (r: Found<Row>)
    requires Fits(payload, rows) && lo <= hi <= rows
    ensures r == Decoded(RowsOf(payload, rows, journal, dictionary)[lo..hi])
  {
    ghost var t := RowsOf(payload, rows, journal, dictionary);
    match payload {
      case RowPayload(plain) =>
        DecodedIs(t[lo..hi], plain[lo..hi]);
        r := Ok(plain[lo..hi]);
      case ColumnPayload(columns) =>
        r := ReadColumns(columns, rows, lo, hi, journal, dictionary);
    }
  }

  method ReadColumns(columns: Columns, rows: nat, lo: nat, hi: nat, journal: bool, dictionary: Option<Dictionary>)
    returns (r: Found<Row>)
    requires Rectangular(columns, rows) && lo <= hi <= rows
    ensures r == Decoded(ColumnRows(columns, rows, journal, dictionary)[lo..hi])
  {
    ghost var t := ColumnRows(columns, rows, journal, dictionary)[lo..hi];
    var found := [];
    for k := lo to hi
      invariant |found| == k - lo && forall i :: 0 <= i < k - lo ==> t[i] == Some(found[i])
    {
      var row := DecodeRow(columns, k, journal, dictionary);
      assert t[k - lo] == row;
      if row.None? {
        DecodedMeans(t);
        return Refused(IndexOutOfRange);
      }
      found := found + [row.value];
    }
    assert t == Plain(found);
    DecodedIs(t, found);
    r := Ok(found);
  }

  /** Reads the part of one page inside positions offset to end - 1, skipping a page outside them. */
  method ReadOverlap(p: Page<Payload>, offset: nat, end: nat, journal: bool, dictionary: Option<Dictionary>)
    returns (r: Found<Row>)
    requires Fits(p.payload, p.rows) && (offset < end || p.offset + p.rows <= offset)
    ensures r == Inside(offset, end)(RowsOf(p.payload, p.rows, journal, dictionary), p.offset)
  {
    ghost var all := RowsOf(p.payload, p.rows, journal, dictionary);
    if p.offset + p.rows <= offset || p.offset >= end {
      DecodedIs(Window(all, offset - p.offset, end - p.offset), []);
      return Ok([]);
    }
    var lo := (if offset > p.offset then offset else p.offset) - p.offset;
    var hi := (if end < p.offset + p.rows then end else p.offset + p.rows) - p.offset;
    assert Window(all, offset - p.offset, end - p.offset) == all[lo..hi];
    r := ReadPage(p.payload, p.rows, lo, hi, journal, dictionary);
  }

  /** Reads the part of one segment inside positions offset to end - 1, touching only pages that overlap it. */
  method ReadSegment(s: Segment<Payload>, offset: nat, end: nat, journal: bool, dictionary: Option<Dictionary>,
                     ghost goal: Found<Row>)
    returns (r: Found<Row>)
    requires PagesLeft(s.pages, s.offset, PageDecoding(journal)(dictionary), Inside(offset, end), offset, end, [], goal)
    ensures r == goal
  {
    var rest, found := s.pages, [];
    ghost var at: nat, decode, read := s.offset, PageDecoding(journal)(dictionary), Inside(offset, end);
    InsideSplits<Row>(offset, end);
    while rest != []
      invariant PagesLeft(rest, at, decode, read, offset, end, found, goal)
      decreases |rest|
    {
      FirstPage(rest, at, decode, read, offset, end, found, goal);
      var part := ReadOverlap(rest[0], offset, end, journal, dictionary);
      if part.Refused? { return part; }
      at := at + rest[0].rows;
      found, rest := found + part.value, rest[1..];
    }
    NothingLeft([], at, offset, end, found, goal);
    r := Ok(found);
  }

  /** Reads segments in order, up to the end, with the dictionary accumulated so far. */
  method ReadSegments(segments: seq<Segment<Payload>>, offset: nat, end: nat, journal: bool, ghost goal: Found<Row>)
    returns (r: Found<Row>)
    requires SegmentsLeft(segments, 0, PageDecoding(journal), [], Inside(offset, end), offset, end, [], goal)
    ensures r == goal
  {
    InsideSplits<Row>(offset, end);
    var rest, found, accumulated := segments, [], [];
    ghost var at: nat, read, decoding := 0, Inside(offset, end), PageDecoding(journal);
    while rest != []
      invariant SegmentsLeft(rest, at, decoding, accumulated, read, offset, end, found, goal)
      decreases |rest|
    {
      var s := rest[0];
      ghost var want := FirstSegment(rest, at, decoding, accumulated, read, offset, end, found, goal);
      if s.offset >= end { break; }
      var dictionary := None;
      if s.dictionary.Some? {
        accumulated := accumulated + s.dictionary.value;
        dictionary := Some(accumulated);
      }
      var part := ReadSegment(s, offset, end, journal, dictionary, want);
      if part.Refused? { return part; }
      at := at + s.rows;
      found, rest := found + part.value, rest[1..];
    }
    NoSegmentLeft(rest, at, decoding, accumulated, offset, end, found, goal);
    r := Ok(found);
  }

  /** One bounded page of a table: exactly the rows of the window, or a refusal if one cannot be decoded. */
  method ReadTable(segments: seq<Segment<Payload>>, total: nat, journal: bool, offset: nat, limit: nat,
                   ghost t: seq<Option<Row>>)
    returns (r: Found<Row>)
    requires Holds(segments, 0, PageDecoding(journal), []) == Some(t) && total == |t|
    ensures r == if 1 <= limit <= MAX_PAGE_LIMIT then Decoded(RowsFrom(t, offset, limit)) else Refused(MalformedInput)
  {
    if !(1 <= limit <= MAX_PAGE_LIMIT) { return Refused(MalformedInput); }
    var end := if offset + limit < total then offset + limit else total;
    WholeWindow(segments, PageDecoding(journal), offset, offset + limit, end, t);
    r := ReadSegments(segments, offset, end, journal, Decoded(Window(t, offset, offset + limit)));
    WindowIsRows(t, offset, limit);
  }

  // ---------------------------------------------------------------- the written layout is readable

  lemma SameRow(a: Columns, i: nat, d: Option<Dictionary>, b: Columns, k: nat, e: Option<Dictionary>, journal: bool)
    requires a.Keys == b.Keys
    requires forall name :: name in a ==> i < |a[name]|
    requires forall name :: name in b ==> k < |b[name]|
    requires forall name :: name in a ==>
      DecodeCell(Coded(journal, name), d, a[name][i]) == DecodeCell(Coded(journal, name), e, b[name][k])
    ensures DecodeRow(a, i, journal, d) == DecodeRow(b, k, journal, e)
  {
    var x, y := DecodeRow(a, i, journal, d), DecodeRow(b, k, journal, e);
    assert x.Some? <==> y.Some?;
    if x.Some? {
      assert x.value.cells.Keys == a.Keys && y.value.cells.Keys == b.Keys;
      assert x.value.cells == y.value.cells;
    }
  }

  lemma SliceDecodes(columns: Columns, count: nat, lo: nat, hi: nat, journal: bool, dictionary: Option<Dictionary>)
    requires Rectangular(columns, count) && lo <= hi <= count
    ensures Rectangular(Slice(columns, lo, hi), hi - lo)
    ensures ColumnRows(Slice(columns, lo, hi), hi - lo, journal, dictionary)
         == ColumnRows(columns, count, journal, dictionary)[lo..hi]
  {
    SliceIs(columns, count, lo, hi);
    var a, b := ColumnRows(Slice(columns, lo, hi), hi - lo, journal, dictionary),
                ColumnRows(columns, count, journal, dictionary);
    forall k: nat | k < hi - lo ensures a[k] == b[lo..hi][k] {
      SlicedRow(columns, count, lo, hi, k, journal, dictionary);
    }
  }

  lemma SlicedRow(columns: Columns, count: nat, lo: nat, hi: nat, k: nat, journal: bool, dictionary: Option<Dictionary>)
    requires lo + k < hi <= count && Rectangular(columns, count) && Rectangular(Slice(columns, lo, hi), hi - lo)
    ensures DecodeRow(Slice(columns, lo, hi), k, journal, dictionary) == DecodeRow(columns, lo + k, journal, dictionary)
  {
    SliceIs(columns, count, lo, hi);
    SameRow(Slice(columns, lo, hi), k, dictionary, columns, lo + k, dictionary, journal);
  }

  lemma SliceIs(columns: Columns, count: nat, lo: nat, hi: nat)
    requires Rectangular(columns, count) && lo <= hi <= count
    ensures var part := Slice(columns, lo, hi);
      part.Keys == columns.Keys && Rectangular(part, hi - lo)
      && forall name, k :: name in columns && 0 <= k < hi - lo ==> part[name][k] == columns[name][lo + k]
  {
    forall name | name in columns ensures Window(columns[name], lo, hi) == columns[name][lo..hi] {
    }
  }

  lemma CutDecodes(payload: Payload, rows: nat, lo: nat, hi: nat, journal: bool, dictionary: Option<Dictionary>)
    requires Fits(payload, rows) && lo <= hi <= rows
    ensures PageDecoding(journal)(dictionary)(Cut(payload)(lo, hi), hi - lo)
         == Some(RowsOf(payload, rows, journal, dictionary)[lo..hi])
  {
    match payload {
      case RowPayload(plain) => assert Plain(plain[lo..hi]) == Plain(plain)[lo..hi];
      case ColumnPayload(columns) => SliceDecodes(columns, rows, lo, hi, journal, dictionary);
    }
  }

  lemma PagesHold(payload: Payload, rows: nat, offset: nat, journal: bool, dictionary: Option<Dictionary>)
    requires Fits(payload, rows)
    ensures Tiles(PagesOf(payload, rows, offset), offset, PageDecoding(journal)(dictionary))
         == Some(RowsOf(payload, rows, journal, dictionary))
  {
    var t, cut, decode := RowsOf(payload, rows, journal, dictionary), Cut(payload), PageDecoding(journal)(dictionary);
    forall lo: nat, hi: nat {:trigger cut(lo, hi)} | lo <= hi <= rows ensures decode(cut(lo, hi), hi - lo) == Some(t[lo..hi]) {
      CutDecodes(payload, rows, lo, hi, journal, dictionary);
    }
    if payload.ColumnPayload? && rows == 0 {
      TilesStep(Page(offset, 0, cut(0, 0)), [], decode, t, []);
      assert t + [] == t && [Page(offset, 0, cut(0, 0))] + [] == [Page(offset, 0, cut(0, 0))];
    } else {
      PagesTile(rows, cut, offset, 0, decode, t);
      assert t[0..] == t;
    }
  }

  lemma SegmentHolds(line: Line, offset: nat, journal: bool, entries: Dictionary)
    requires WellFormed(line)
    ensures var s := SegmentOf(line, offset);
      s.offset == offset && s.rows == LineCount(line) == |LineRows(line, journal, entries)|
      && Known(s, entries) == More(line, entries)
      && Tiles(s.pages, offset, PageDecoding(journal)(Used(s, entries))) == Some(LineRows(line, journal, entries))
  {
    PagesHold(Whole(line), LineCount(line), offset, journal, Used(SegmentOf(line, offset), entries));
  }

  lemma {:induction false} TableLength(lines: seq<Line>, journal: bool, entries: Dictionary)
    requires AllWellFormed(lines)
    ensures |Table(lines, journal, entries)| == Total(lines)
  {
    if lines != [] { TableLength(lines[1..], journal, More(lines[0], entries)); }
  }

  /** What the writer lays out is the decoded table, whatever the lines and their lengths. */
  lemma {:induction false} WrittenHolds(lines: seq<Line>, offset: nat, journal: bool, entries: Dictionary)
    requires AllWellFormed(lines)
    ensures Holds(SegmentsOf(lines, offset), offset, PageDecoding(journal), entries)
         == Some(Table(lines, journal, entries))
  {
    if lines != [] {
      WrittenHolds(lines[1..], offset + LineCount(lines[0]), journal, More(lines[0], entries));
      LineThenRest(lines[0], offset, journal, entries, SegmentsOf(lines[1..], offset + LineCount(lines[0])),
                   Table(lines[1..], journal, More(lines[0], entries)));
    }
  }

  lemma LineThenRest(line: Line, offset: nat, journal: bool, entries: Dictionary, after: seq<Segment<Payload>>,
                     rest: seq<Option<Row>>)
    requires WellFormed(line)
    requires Holds(after, offset + LineCount(line), PageDecoding(journal), More(line, entries)) == Some(rest)
    ensures Holds([SegmentOf(line, offset)] + after, offset, PageDecoding(journal), entries)
         == Some(LineRows(line, journal, entries) + rest)
  {
    SegmentHolds(line, offset, journal, entries);
    HoldsStep(SegmentOf(line, offset), after, PageDecoding(journal), entries, LineRows(line, journal, entries), rest);
  }

  /** Publishing a table and reading any window of it gives exactly those rows of the decoded table. */
  method WriteThenRead(lines: seq<Line>, journal: bool, offset: nat, limit: nat) returns (r: Found<Row>)
    ensures r == if !AllWellFormed(lines) then Refused(StreamLayout)
                 else if !(1 <= limit <= MAX_PAGE_LIMIT) then Refused(MalformedInput)
                 else Decoded(RowsFrom(Table(lines, journal, []), offset, limit))
  {
    var written := WriteTable(lines);
    if written.Refused? { return Refused(written.error); }
    WrittenHolds(lines, 0, journal, []);
    TableLength(lines, journal, []);
    r := ReadTable(written.value.0, written.value.1, journal, offset, limit, Table(lines, journal, []));
  }

  // ---------------------------------------------------------------- when the decoded table is the meant one

  /** A journal line that adds no dictionary although it has coded cells. */
  ghost predicate LeftCoded(line: Line, journal: bool) {
    line.ColumnsLine? && line.dictionary.None? && Count(line.columns) > 0
    && exists name :: name in line.columns && Coded(journal, name)
  }

  lemma CodedRowDiffers(columns: Columns, k: nat, name: string, journal: bool, entries: Dictionary)
    requires forall n :: n in columns ==> k < |columns[n]|
    requires name in columns && Coded(journal, name)
    ensures DecodeRow(columns, k, journal, None) != DecodeRow(columns, k, journal, Some(entries))
  {
    var raw, decoded := DecodeRow(columns, k, journal, None), DecodeRow(columns, k, journal, Some(entries));
    assert raw.Some? && raw.value.cells[name] == columns[name][k];
    if decoded.Some? { assert decoded.value.cells[name] == Label(entries[columns[name][k].n]); }
  }

  lemma LineAsMeant(line: Line, journal: bool, entries: Dictionary)
    requires WellFormed(line)
    ensures |LineRows(line, journal, entries)| == LineCount(line) == |MeantRows(line, journal, entries)|
    ensures LineRows(line, journal, entries) == MeantRows(line, journal, entries) <==> !LeftCoded(line, journal)
  {
    if line.ColumnsLine? && line.dictionary.None? {
      var columns := line.columns;
      if LeftCoded(line, journal) {
        var name :| name in columns && Coded(journal, name);
        CodedRowDiffers(columns, 0, name, journal, entries);
        assert LineRows(line, journal, entries)[0] != MeantRows(line, journal, entries)[0];
      } else {
        forall k: nat | k < Count(columns)
          ensures DecodeRow(columns, k, journal, None) == DecodeRow(columns, k, journal, Some(entries))
        {
          assert forall name :: name in columns ==> !Coded(journal, name);
          SameRow(columns, k, None, columns, k, Some(entries), journal);
        }
      }
    }
  }

  /**
   * The decoded table is the one the indices mean exactly if every journal line with coded cells carries a
   * dictionary, possibly empty. A producer may omit one that adds nothing, and then the cells stay indices.
   */
  lemma {:induction false} DecodedAsMeant(lines: seq<Line>, journal: bool, entries: Dictionary)
    requires AllWellFormed(lines)
    ensures |Table(lines, journal, entries)| == |MeantTable(lines, journal, entries)|
    ensures Table(lines, journal, entries) == MeantTable(lines, journal, entries)
       <==> forall line <- lines :: !LeftCoded(line, journal)
  {
    if lines != [] {
      var more := More(lines[0], entries);
      LineAsMeant(lines[0], journal, entries);
      DecodedAsMeant(lines[1..], journal, more);
      var a, b := LineRows(lines[0], journal, entries), MeantRows(lines[0], journal, entries);
      var n := LineCount(lines[0]);
      assert Table(lines, journal, entries)[..n] == a && MeantTable(lines, journal, entries)[..n] == b;
      assert Table(lines, journal, entries)[n..] == Table(lines[1..], journal, more);
      assert MeantTable(lines, journal, entries)[n..] == MeantTable(lines[1..], journal, more);
      assert lines == [lines[0]] + lines[1..];
    }
  }

  /** Two journal lines, the second without its own dictionary: its account reads back as the index 0. */
  lemma OmittedDictionaryIsNotDecoded()
    ensures var lines := [ColumnsLine(map["account" := [Number(0)]], Some(["cash"])),
                          ColumnsLine(map["account" := [Number(0)]], None)];
            AllWellFormed(lines)
            && Table(lines, true, []) == [Some(Row(map["account" := Label("cash")])), Some(Row(map["account" := Number(0)]))]
            && MeantTable(lines, true, []) ==
               [Some(Row(map["account" := Label("cash")])), Some(Row(map["account" := Label("cash")]))]
  {
    var columns: Columns := map["account" := [Number(0)]];
    var first, second := ColumnsLine(columns, Some(["cash"])), ColumnsLine(columns, None);
    assert "account" in columns && columns["account"] == [Number(0)];
    assert Count(columns) == 1;
    assert Coded(true, "account");
    var account := columns["account"][0];
    assert account == Number(0);
    var decoded, raw := DecodeRow(columns, 0, true, Some(["cash"])), DecodeRow(columns, 0, true, None);
    assert forall name :: name in columns <==> name == "account";
    assert DecodeCell(true, Some(["cash"]), account) == Some(Label("cash"));
    assert decoded.Some? && decoded.value.cells == map["account" := Label("cash")];
    assert raw.Some? && raw.value.cells == map["account" := Number(0)];
    var lines := [first, second];
    assert More(first, []) == ["cash"] && More(second, ["cash"]) == ["cash"];
    assert lines[1..] == [second] && [second][1..] == [];
    assert LineRows(first, true, []) == [Some(Row(map["account" := Label("cash")]))];
    assert LineRows(second, true, ["cash"]) == [Some(Row(map["account" := Number(0)]))];
    assert MeantRows(second, true, ["cash"]) == [Some(Row(map["account" := Label("cash")]))];
    assert Table([second], true, ["cash"]) == LineRows(second, true, ["cash"]);
    assert MeantTable([second], true, ["cash"]) == MeantRows(second, true, ["cash"]);
  }

  // ---------------------------------------------------------------- later entries change nothing

  /** A row that decodes keeps its labels when entries are added: earlier indices keep their meaning. */
  lemma RowIsStable(columns: Columns, k: nat, journal: bool, entries: Dictionary, more: Dictionary)
    requires forall name :: name in columns ==> k < |columns[name]|
    requires DecodeRow(columns, k, journal, Some(entries)).Some?
    ensures DecodeRow(columns, k, journal, Some(entries + more)) == DecodeRow(columns, k, journal, Some(entries))
  {
    SameRow(columns, k, Some(entries), columns, k, Some(entries + more), journal);
  }

  lemma RowsAreStable(payload: Payload, rows: nat, journal: bool, entries: Dictionary, more: Dictionary)
    requires Fits(payload, rows) && None !in RowsOf(payload, rows, journal, Some(entries))
    ensures RowsOf(payload, rows, journal, Some(entries + more)) == RowsOf(payload, rows, journal, Some(entries))
  {
    if payload.ColumnPayload? {
      var t := RowsOf(payload, rows, journal, Some(entries));
      forall k: nat | k < rows
        ensures DecodeRow(payload.columns, k, journal, Some(entries + more))
             == DecodeRow(payload.columns, k, journal, Some(entries))
      {
        assert t[k] in t;
        RowIsStable(payload.columns, k, journal, entries, more);
      }
    }
  }

  /** All entries of the lines, and the table decoded with one dictionary throughout. */
  function AllEntries(lines: seq<Line>, entries: Dictionary): Dictionary {
    if lines == [] then entries else AllEntries(lines[1..], More(lines[0], entries))
  }

  ghost function DecodedWith(lines: seq<Line>, journal: bool, dictionary: Dictionary): seq<Option<Row>>
    requires AllWellFormed(lines)
  {
    if lines == [] then []
    else RowsOf(Whole(lines[0]), LineCount(lines[0]), journal, Some(dictionary))
         + DecodedWith(lines[1..], journal, dictionary)
  }

  lemma {:induction false} EntriesGrow(lines: seq<Line>, entries: Dictionary)
    ensures entries <= AllEntries(lines, entries)
  {
    if lines != [] { EntriesGrow(lines[1..], More(lines[0], entries)); }
  }

  /**
   * Decoding each line with the entries known so far gives what the complete dictionary would give, for every table
   * whose indices are in range: reading segment by segment needs no look ahead.
   */
  lemma {:induction false} PrefixSuffices(lines: seq<Line>, journal: bool, entries: Dictionary)
    requires AllWellFormed(lines) && None !in MeantTable(lines, journal, entries)
    ensures DecodedWith(lines, journal, AllEntries(lines, entries)) == MeantTable(lines, journal, entries)
  {
    if lines != [] {
      var line, more, full := lines[0], More(lines[0], entries), AllEntries(lines, entries);
      EntriesGrow(lines[1..], more);
      assert full == more + full[|more|..];
      assert forall row <- MeantRows(line, journal, entries) :: row in MeantTable(lines, journal, entries);
      assert forall row <- MeantTable(lines[1..], journal, more) :: row in MeantTable(lines, journal, entries);
      RowsAreStable(Whole(line), LineCount(line), journal, more, full[|more|..]);
      PrefixSuffices(lines[1..], journal, more);
    }
  }
}
