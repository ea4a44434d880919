/**
 * Bounded windows over a table laid out in segments of pages (apps/api-rust/src/publish.rs), for any form of
 * page payload P and any way to decode it to rows R.
 */
module Windows {
  import opened Common

  const PAGE_ROWS: nat := 1000

  type Dictionary = seq<string>
  datatype Page<+P> = Page(offset: nat, rows: nat, payload: P)
  datatype Segment<+P> = Segment(offset: nat, rows: nat, dictionary: Option<Dictionary>, pages: seq<Page<P>>)

  datatype Refusal = StreamLayout | MalformedInput | IndexOutOfRange

  /** The rows read, or why not. */
  type Found<R> = Result<seq<R>, Refusal>

  // ---------------------------------------------------------------- windows

  function Clamp(x: int, lo: int, hi: int): int
    requires lo <= hi
  {
    if x < lo then lo else if x > hi then hi else x
  }

  /** The elements of t at positions lo to hi - 1 that exist. */
  function Window<T>(t: seq<T>, lo: int, hi: int): seq<T> {
    var a := Clamp(lo, 0, |t|);
    t[a..Clamp(hi, a, |t|)]
  }

  /** The `limit` elements from `offset` on, as far as they exist. */
  function RowsFrom<T>(t: seq<T>, offset: nat, limit: nat): seq<T> {
    if offset >= |t| then [] else t[offset..if offset + limit < |t| then offset + limit else |t|]
  }

  lemma WindowIsRows<T>(t: seq<T>, offset: nat, limit: nat)
    ensures Window(t, offset, offset + limit) == RowsFrom(t, offset, limit)
  {
  }

  lemma WindowOfConcat<T>(a: seq<T>, b: seq<T>, lo: int, hi: int)
    ensures Window(a + b, lo, hi) == Window(a, lo, hi) + Window(b, lo - |a|, hi - |a|)
  {
  }

  lemma WindowsJoin<T>(t: seq<T>, lo: int, mid: int, hi: int)
    requires lo <= mid <= hi
    ensures Window(t, lo, mid) + Window(t, mid, hi) == Window(t, lo, hi)
  {
  }

  // ---------------------------------------------------------------- rows that may not decode

  function Plain<R>(rows: seq<R>): (r: seq<Option<R>>)
    ensures |r| == |rows| && forall k :: 0 <= k < |rows| ==> r[k] == Some(rows[k])
  {
    seq(|rows|, k requires 0 <= k < |rows| => Some(rows[k]))
  }

  /** The rows of both, or the first refusal. */
  function Then<R>(a: Found<R>, b: Found<R>): Found<R> {
    if a.Refused? then a else if b.Refused? then b else Ok(a.value + b.value)
  }

  function OneRow<R>(row: Option<R>): Found<R> { if row.None? then Refused(IndexOutOfRange) else Ok([row.value]) }

  /** The rows of t, or a refusal if some row cannot be decoded. */
  function Decoded<R>(t: seq<Option<R>>): Found<R> {
    if t == [] then Ok([]) else Then(OneRow(t[0]), Decoded(t[1..]))
  }

  lemma ThenStart<R>(a: Found<R>)
    ensures Then(Ok([]), a) == a
  {
    if a.Ok? { assert [] + a.value == a.value; }
  }

  lemma ThenAssociative<R>(a: Found<R>, b: Found<R>, c: Found<R>)
    ensures Then(Then(a, b), c) == Then(a, Then(b, c))
  {
    if a.Ok? && b.Ok? && c.Ok? { Associative(a.value, b.value, c.value); }
  }

  /** A refusal means that a row cannot be decoded; otherwise the rows are those of t. */
  lemma {:induction false} DecodedMeans<R>(t: seq<Option<R>>)
    ensures Decoded(t) == Refused(IndexOutOfRange) <==> None in t
    ensures Decoded(t).Ok? <==> None !in t
    ensures Decoded(t).Ok? ==> t == Plain(Decoded(t).value)
  {
    if t != [] {
      DecodedMeans(t[1..]);
      assert t == [t[0]] + t[1..];
      if Decoded(t).Ok? { assert Plain(Decoded(t).value)[1..] == Plain(Decoded(t[1..]).value); }
    }
  }

  lemma {:induction false} DecodedIs<R>(t: seq<Option<R>>, found: seq<R>)
    requires t == Plain(found)
    ensures Decoded(t) == Ok(found)
  {
    if t != [] {
      assert t[1..] == Plain(found[1..]);
      DecodedIs(t[1..], found[1..]);
      assert found == [found[0]] + found[1..];
    }
  }

  lemma {:induction false} DecodedConcat<R>(a: seq<Option<R>>, b: seq<Option<R>>)
    ensures Decoded(a + b) == Then(Decoded(a), Decoded(b))
  {
    if a == [] {
      assert a + b == b;
      ThenStart(Decoded(b));
    } else {
      Uncons(a, b);
      DecodedConcat(a[1..], b);
      ThenAssociative(OneRow(a[0]), Decoded(a[1..]), Decoded(b));
    }
  }

  /** Two adjacent windows of a table give the joined window, or the first refusal. */
  lemma AdjacentPages<R>(t: seq<Option<R>>, lo: int, mid: int, hi: int)
    requires lo <= mid <= hi
    ensures Decoded(Window(t, lo, hi)) == Then(Decoded(Window(t, lo, mid)), Decoded(Window(t, mid, hi)))
  {
    WindowsJoin(t, lo, mid, hi);
    DecodedConcat(Window(t, lo, mid), Window(t, mid, hi));
  }

  // ---------------------------------------------------------------- layouts

  /** How a payload of so many rows decodes; nothing if it does not have that many. */
  type Decoder<!P, R> = (P, nat) -> Option<seq<Option<R>>>

  /** The rows that pages hold, end to end, from table position `base` on; nothing if they do not fit together. */
  function Tiles<P, R>(pages: seq<Page<P>>, base: nat, decode: Decoder<P, R>): Option<seq<Option<R>>> {
    if pages == [] then Some([])
    else
      var p := pages[0];
      var here, rest := decode(p.payload, p.rows), Tiles(pages[1..], base + p.rows, decode);
      if p.offset == base && here.Some? && |here.value| == p.rows && rest.Some? then Some(here.value + rest.value) else None
  }

  /** The entries known after a segment, and those it is decoded with. */
  function Known<P>(s: Segment<P>, entries: Dictionary): Dictionary {
    if s.dictionary.Some? then entries + s.dictionary.value else entries
  }

  function Used<P>(s: Segment<P>, entries: Dictionary): Option<Dictionary> {
    if s.dictionary.Some? then Some(Known(s, entries)) else None
  }

  /** How payloads decode with the dictionary of their segment. */
  type Decoding<!P, R> = Option<Dictionary> -> Decoder<P, R>

  /** The rows that segments hold, in any page split; segment k is decoded with dictionaries 0 to k. */
  function Holds<P, R>(segments: seq<Segment<P>>, base: nat, decoding: Decoding<P, R>,
                       entries: Dictionary): Option<seq<Option<R>>> {
    if segments == [] then Some([])
    else
      var s := segments[0];
      var here := Tiles(s.pages, base, decoding(Used(s, entries)));
      var rest := Holds(segments[1..], base + s.rows, decoding, Known(s, entries));
      if s.offset == base && here.Some? && |here.value| == s.rows && rest.Some? then Some(here.value + rest.value) else None
  }

  // ---------------------------------------------------------------- reading in order

  /** What reading the rows t, which start at table position `at`, gives. */
  type Reader<!R> = (seq<Option<R>>, nat) -> Found<R>

  /** The part inside positions offset to end - 1. */
  function Inside<R>(offset: nat, end: nat): Reader<R> { (t, at: nat) => Decoded(Window(t, offset - at, end - at)) }

  /** Reading rows is reading the first n of them and then the others. */
  ghost predicate Splits<R(!new)>(read: Reader<R>) {
    forall t, at: nat, n: nat {:trigger read(t[..n], at)} ::
      n <= |t| ==> read(t, at) == Then(read(t[..n], at), read(t[n..], at + n))
  }

  lemma InsideSplits<R(!new)>(offset: nat, end: nat)
    ensures Splits<R>(Inside(offset, end))
  {
    var read := Inside<R>(offset, end);
    forall t, at: nat, n: nat | n <= |t| ensures read(t, at) == Then(read(t[..n], at), read(t[n..], at + n)) {
      assert t == t[..n] + t[n..];
      WindowOfConcat(t[..n], t[n..], offset - at, end - at);
      DecodedConcat(Window(t[..n], offset - at, end - at), Window(t[n..], offset - at - n, end - at - n));
    }
  }

  /** Nothing of t lies inside. */
  lemma ReadNothing<R>(t: seq<Option<R>>, at: nat, offset: nat, end: nat, found: seq<R>)
    requires t == [] || end <= at
    ensures Then(Ok(found), Inside(offset, end)(t, at)) == Ok(found)
  {
    DecodedIs(Window(t, offset - at, end - at), []);
    assert found + [] == found;
  }

  /** Either the first n rows are the refusal that is the goal, or the others complete it. */
  lemma PartThenRest<R(!new)>(here: seq<Option<R>>, rest: seq<Option<R>>, at: nat, read: Reader<R>, found: seq<R>,
                       goal: Found<R>)
    requires Splits(read) && Then(Ok(found), read(here + rest, at)) == goal
    ensures var part := read(here, at);
      if part.Refused? then part == goal else Then(Ok(found + part.value), read(rest, at + |here|)) == goal
  {
    assert (here + rest)[..|here|] == here && (here + rest)[|here|..] == rest;
    ThenAssociative(Ok(found), read(here, at), read(rest, at + |here|));
  }

  /** The pages still to read hold rows that, after those found, complete the goal. */
  ghost predicate PagesLeft<P, R>(rest: seq<Page<P>>, at: nat, decode: Decoder<P, R>, read: Reader<R>, offset: nat,
                                  end: nat,
                                  found: seq<R>, goal: Found<R>) {
    var ahead := Tiles(rest, at, decode);
    ahead.Some? && (offset < end || at + |ahead.value| <= offset) && Then(Ok(found), read(ahead.value, at)) == goal
  }

  lemma FirstPage<P, R(!new)>(rest: seq<Page<P>>, at: nat, decode: Decoder<P, R>, read: Reader<R>, offset: nat,
                       end: nat,
                              found: seq<R>, goal: Found<R>)
    requires rest != [] && Splits(read) && PagesLeft(rest, at, decode, read, offset, end, found, goal)
    ensures var p := rest[0];
      var here := decode(p.payload, p.rows);
      here.Some? && |here.value| == p.rows && p.offset == at && (offset < end || at + p.rows <= offset)
      && var part := read(here.value, at);
         if part.Refused? then part == goal
         else PagesLeft(rest[1..], at + p.rows, decode, read, offset, end, found + part.value, goal)
  {
    var here, left := decode(rest[0].payload, rest[0].rows).value, Tiles(rest[1..], at + rest[0].rows, decode).value;
    PartThenRest(here, left, at, read, found, goal);
  }

  /** The segments still to read, decoded with the entries known so far, complete the goal. */
  ghost predicate SegmentsLeft<P, R>(rest: seq<Segment<P>>, at: nat, decoding: Decoding<P, R>, entries: Dictionary,
                                     read: Reader<R>, offset: nat, end: nat, found: seq<R>, goal: Found<R>) {
    var ahead := Holds(rest, at, decoding, entries);
    ahead.Some? && (offset < end || at + |ahead.value| <= offset) && Then(Ok(found), read(ahead.value, at)) == goal
  }

  lemma FirstSegment<P, R(!new)>(rest: seq<Segment<P>>, at: nat, decoding: Decoding<P, R>, entries: Dictionary,
                                 read: Reader<R>, offset: nat, end: nat, found: seq<R>,
                                 goal: Found<R>) returns (part: Found<R>)
    requires rest != [] && Splits(read) && SegmentsLeft(rest, at, decoding, entries, read, offset, end, found, goal)
    ensures rest[0].offset == at
    ensures PagesLeft(rest[0].pages, at, decoding(Used(rest[0], entries)), read, offset, end, [], part)
    ensures part.Refused? ==> part == goal
    ensures part.Ok? ==> SegmentsLeft(rest[1..], at + rest[0].rows, decoding, Known(rest[0], entries), read, offset, end,
                                      found + part.value, goal)
  {
    var s := rest[0];
    var here := Tiles(s.pages, at, decoding(Used(s, entries))).value;
    var left := Holds(rest[1..], at + s.rows, decoding, Known(s, entries)).value;
    part := read(here, at);
    PartThenRest(here, left, at, read, found, goal);
    ThenStart(part);
  }

  lemma NothingLeft<R>(ahead: seq<Option<R>>, at: nat, offset: nat, end: nat, found: seq<R>, goal: Found<R>)
    requires Then(Ok(found), Inside(offset, end)(ahead, at)) == goal && (ahead == [] || end <= at)
    ensures goal == Ok(found)
  {
    ReadNothing(ahead, at, offset, end, found);
  }

  lemma NoSegmentLeft<P, R>(rest: seq<Segment<P>>, at: nat, decoding: Decoding<P, R>, entries: Dictionary, offset: nat,
                            end: nat,
                            found: seq<R>, goal: Found<R>)
    requires SegmentsLeft(rest, at, decoding, entries, Inside(offset, end), offset, end, found, goal)
    requires rest == [] || end <= at
    ensures goal == Ok(found)
  {
    NothingLeft(Holds(rest, at, decoding, entries).value, at, offset, end, found, goal);
  }

  /** A window of a whole table, with its end cut to the number of rows. */
  lemma WholeWindow<P, R>(segments: seq<Segment<P>>, decoding: Decoding<P, R>, offset: nat, upTo: nat, end: nat,
                          t: seq<Option<R>>)
    requires Holds(segments, 0, decoding, []) == Some(t) && offset < upTo && end == if upTo < |t| then upTo else |t|
    ensures SegmentsLeft(segments, 0, decoding, [], Inside(offset, end), offset, end, [],
                         Decoded(Window(t, offset, upTo)))
  {
    assert Window(t, offset, end) == Window(t, offset, upTo);
    ThenStart(Decoded(Window(t, offset, upTo)));
    assert Inside<R>(offset, end)(t, 0) == Decoded(Window(t, offset, upTo));
  }

  // ---------------------------------------------------------------- cutting into pages

  /** How a payload is cut: rows lo to hi - 1 of it. */
  type Cutter<P> = (nat, nat) -> P

  function PageEnd(rows: nat, start: nat): nat { if start + PAGE_ROWS < rows then start + PAGE_ROWS else rows }

  /** The page of at most PAGE_ROWS rows that begins at row `start`. */
  function PageAt<P>(rows: nat, cut: Cutter<P>, offset: nat, start: nat): Page<P>
    requires start < rows
  {
    Page(offset + start, PageEnd(rows, start) - start, cut(start, PageEnd(rows, start)))
  }

  function PagesFrom<P>(rows: nat, cut: Cutter<P>, offset: nat, start: nat): seq<Page<P>>
    decreases rows - start
  {
    if start >= rows then [] else [PageAt(rows, cut, offset, start)] + PagesFrom(rows, cut, offset, start + PAGE_ROWS)
  }

  /** Every cut decodes to the rows it is of. */
  ghost predicate CutsWell<P, R>(rows: nat, cut: Cutter<P>, decode: Decoder<P, R>, t: seq<Option<R>>) {
    |t| == rows
    && forall lo: nat, hi: nat {:trigger cut(lo, hi)} :: lo <= hi <= rows ==> decode(cut(lo, hi), hi - lo) == Some(t[lo..hi])
  }

  lemma TilesStep<P, R>(p: Page<P>, after: seq<Page<P>>, decode: Decoder<P, R>, here: seq<Option<R>>,
                        rest: seq<Option<R>>)
    requires decode(p.payload, p.rows) == Some(here) && |here| == p.rows
      && Tiles(after, p.offset + p.rows, decode) == Some(rest)
    ensures Tiles([p] + after, p.offset, decode) == Some(here + rest)
  {
    assert ([p] + after)[1..] == after;
  }

  lemma NoPages<P>(rows: nat, cut: Cutter<P>, offset: nat, start: nat)
    requires start < rows
    ensures PagesFrom(rows, cut, offset, start + PAGE_ROWS) == PagesFrom(rows, cut, offset, PageEnd(rows, start))
  {
  }

  /** The pages of a well-cut payload hold its rows. */
  lemma {:induction false} PagesTile<P, R>(rows: nat, cut: Cutter<P>, offset: nat, start: nat, decode: Decoder<P, R>,
                                           t: seq<Option<R>>)
    requires start <= rows && CutsWell(rows, cut, decode, t)
    ensures Tiles(PagesFrom(rows, cut, offset, start), offset + start, decode) == Some(t[start..])
    decreases rows - start
  {
    if start == rows {
      assert t[start..] == [];
    } else {
      var end := PageEnd(rows, start);
      PagesTile(rows, cut, offset, end, decode, t);
      NoPages(rows, cut, offset, start);
      TilesStep(PageAt(rows, cut, offset, start), PagesFrom(rows, cut, offset, end), decode, t[start..end], t[end..]);
      assert t[start..] == t[start..end] + t[end..];
    }
  }

  lemma HoldsStep<P, R>(s: Segment<P>, after: seq<Segment<P>>, decoding: Decoding<P, R>, entries: Dictionary,
                        here: seq<Option<R>>, rest: seq<Option<R>>)
    requires |here| == s.rows && Tiles(s.pages, s.offset, decoding(Used(s, entries))) == Some(here)
    requires Holds(after, s.offset + s.rows, decoding, Known(s, entries)) == Some(rest)
    ensures Holds([s] + after, s.offset, decoding, entries) == Some(here + rest)
  {
    assert ([s] + after)[1..] == after;
  }
}
