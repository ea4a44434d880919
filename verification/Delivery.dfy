/**
 * Delivery of a committed result to the tables of one catalog destination (apps/api/app/iceberg.py): each table
 * commits the rows of a run and the run's marker together, by compare-and-swap on its version.
 */
module Delivery {
  import opened Common

  type Run = nat
  type Cells = nat
  type Schema = seq<(string, string)>

  /** A table of the destination: the name of a result table, and its schema for the fingerprint in the identifier. */
  datatype TableId = TableId(name: string, schema: Schema)

  /** A stored row carries the run that wrote it; rows of other writers carry none. */
  datatype Row = Row(run: Option<Run>, cells: Cells)

  /**
   * A partition: its declared row count, the columns and rows its object decodes to, and whether every value can be
   * cast to the declared type of its column without loss.
   */
  datatype Part = Part(rows: nat, columns: set<string>, cells: seq<Cells>, castable: bool)
  datatype Entry = Entry(path: string, partitioned: bool, schema: Schema, rows: nat, parts: seq<Part>)
  datatype Job = Job(revision: nat, digest: nat, entries: seq<Entry>)
  type Jobs = map<Run, Job>

  datatype Receipt = Receipt(table: TableId, uuid: nat, snapshot: nat, rows: nat, digest: nat)
  datatype Table = Table(version: nat, uuid: nat, scope: string, schema: Schema, snapshot: nat, rows: seq<Row>,
                         markers: map<Run, Receipt>)
  datatype Manifest = Manifest(run: Run, revision: nat, digest: nat, tables: map<string, Receipt>)

  /** The catalog, the recorded receipts, and the result digest of every job that is done. */
  datatype State = State(tables: map<TableId, Table>, receipts: map<Run, Manifest>, done: map<Run, nat>)

  const START := State(map[], map[], map[])

  // ---------------------------------------------------------------- tables of entries

  /** The path without its leading slashes. */
  function NameOf(path: string): string { if path != "" && path[0] == '/' then NameOf(path[1..]) else path }

  predicate PlainName(name: string) { name != "" && forall c <- name :: 'a' <= c <= 'z' || c == '_' }

  function TableOf(e: Entry): TableId { TableId(NameOf(e.path), e.schema) }

  // ---------------------------------------------------------------- what a run delivers

  function Contents(parts: seq<Part>): seq<Cells> { if parts == [] then [] else parts[0].cells + Contents(parts[1..]) }

  function Columns(schema: Schema): set<string> { set column <- schema :: column.0 }

  predicate PartsOk(parts: seq<Part>, schema: Schema) {
    parts == []
    || (|parts[0].cells| == parts[0].rows && parts[0].columns == Columns(schema) && parts[0].castable
        && PartsOk(parts[1..], schema))
  }

  /** The partitions hold what the entry declares. */
  predicate Sound(e: Entry) { PartsOk(e.parts, e.schema) && |Contents(e.parts)| == e.rows }

  function Tagged(run: Run, cells: seq<Cells>): seq<Row> {
    seq(|cells|, k requires 0 <= k < |cells| => Row(Some(run), cells[k]))
  }

  /** The rows a run has in a table, in order. */
  function Of(run: Run, rows: seq<Row>): seq<Cells> {
    if rows == [] then [] else (if rows[0].run == Some(run) then [rows[0].cells] else []) + Of(run, rows[1..])
  }

  lemma {:induction false} OfConcat(run: Run, a: seq<Row>, b: seq<Row>)
    ensures Of(run, a + b) == Of(run, a) + Of(run, b)
  {
    if a == [] {
      assert a + b == b;
    } else {
      OfConcat(run, a[1..], b);
      Uncons(a, b);
      Associative(if a[0].run == Some(run) then [a[0].cells] else [], Of(run, a[1..]), Of(run, b));
    }
  }

  lemma {:induction false} OfTagged(run: Run, other: Run, cells: seq<Cells>)
    ensures Of(other, Tagged(run, cells)) == if other == run then cells else []
  {
    if cells != [] {
      OfTagged(run, other, cells[1..]);
      assert Tagged(run, cells)[1..] == Tagged(run, cells[1..]);
    }
  }

  // ---------------------------------------------------------------- steps

  /** The table after one transaction appended every partition, an empty batch if there are no rows, and the marker. */
  function Appended(t: Table, run: Run, job: Job, e: Entry): Table {
    var cells := Contents(e.parts);
    var snapshot := t.snapshot + |e.parts| + if cells == [] then 1 else 0;
    t.(version := t.version + 1, snapshot := snapshot, rows := t.rows + Tagged(run, cells),
       markers := t.markers[run := Receipt(TableOf(e), t.uuid, snapshot, |cells|, job.digest)])
  }

  predicate Delivered(s: State, run: Run, e: Entry) { TableOf(e) in s.tables && run in s.tables[TableOf(e)].markers }

  ghost predicate AllDelivered(s: State, run: Run, job: Job) { forall e <- job.entries :: Delivered(s, run, e) }

  /** The manifest of a delivered run: for each path the receipt its table holds. */
  ghost function ManifestOf(s: State, run: Run, job: Job): Manifest
    requires AllDelivered(s, run, job)
  {
    Manifest(run, job.revision, job.digest, ReceiptsOf(s, run, job.entries))
  }

  ghost function ReceiptsOf(s: State, run: Run, entries: seq<Entry>): map<string, Receipt>
    requires forall e <- entries :: Delivered(s, run, e)
  {
    if entries == [] then map[]
    else
      var n := |entries| - 1;
      var last := entries[n];
      assert last in entries && forall e <- entries[..n] :: e in entries;
      assert Delivered(s, run, last);
      ReceiptsOf(s, run, entries[..n])[last.path := s.tables[TableOf(last)].markers[run]]
  }

  datatype Event =
    | Create(table: TableId, created: Table)
    | Deliver(run: Run, entry: Entry)
    | Foreign(table: TableId, written: Table)
    | Record(run: Run)
    | Finish(run: Run)

  /** A commit of some other writer leaves the rows and markers of all runs as they are. */
  ghost predicate Respects(jobs: Jobs, t: Table, t': Table) {
    t'.version > t.version && t'.uuid == t.uuid
    && forall run <- jobs :: Of(run, t'.rows) == Of(run, t.rows) && (run in t'.markers <==> run in t.markers)
                             && (run in t.markers ==> t'.markers[run] == t.markers[run])
  }

  ghost predicate Allowed(jobs: Jobs, s: State, e: Event) {
    match e
    case Create(id, t) => id !in s.tables && t.rows == [] && t.markers == map[]
    case Deliver(run, entry) =>
      run in jobs && entry in jobs[run].entries && Sound(entry)
      && TableOf(entry) in s.tables && run !in s.tables[TableOf(entry)].markers
    case Foreign(id, t) => id in s.tables && Respects(jobs, s.tables[id], t)
    case Record(run) => run in jobs && run in s.done && run !in s.receipts && AllDelivered(s, run, jobs[run])
    case Finish(run) => run in jobs && run !in s.done
  }

  ghost function Step(jobs: Jobs, s: State, e: Event): State
    requires Allowed(jobs, s, e)
  {
    match e
    case Create(id, t) => s.(tables := s.tables[id := t])
    case Deliver(run, entry) =>
      s.(tables := s.tables[TableOf(entry) := Appended(s.tables[TableOf(entry)], run, jobs[run], entry)])
    case Foreign(id, t) => s.(tables := s.tables[id := t])
    case Record(run) => s.(receipts := s.receipts[run := ManifestOf(s, run, jobs[run])])
    case Finish(run) => s.(done := s.done[run := jobs[run].digest])
  }

  // ---------------------------------------------------------------- exactly once

  /** The rows of one run in one table: all of them with the marker, none without it. */
  ghost predicate RunOk(jobs: Jobs, id: TableId, t: Table, run: Run)
    requires run in jobs
  {
    if run !in t.markers then Of(run, t.rows) == []
    else exists e <- jobs[run].entries ::
      TableOf(e) == id && Sound(e) && Of(run, t.rows) == Contents(e.parts)
      && t.markers[run] == Receipt(id, t.uuid, t.markers[run].snapshot, e.rows, jobs[run].digest)
  }

  ghost predicate TableOk(jobs: Jobs, id: TableId, t: Table) { forall run <- jobs :: RunOk(jobs, id, t, run) }

  ghost predicate ReceiptOk(jobs: Jobs, s: State, run: Run)
    requires run in s.receipts
  {
    run in jobs ==> AllDelivered(s, run, jobs[run]) && s.receipts[run] == ManifestOf(s, run, jobs[run])
  }

  ghost predicate Inv(jobs: Jobs, s: State) {
    (forall id <- s.tables :: TableOk(jobs, id, s.tables[id])) && (forall run <- s.receipts :: ReceiptOk(jobs, s, run))
    && forall run <- s.done :: run in jobs ==> s.done[run] == jobs[run].digest
  }

  /** What any step keeps: tables, markers, the rows of a marked run, receipts, and the table of one version. */
  ghost predicate Keeps(jobs: Jobs, t: Table, t': Table) {
    t.version <= t'.version && (t.version == t'.version ==> t == t') && t.uuid == t'.uuid
    && forall run <- jobs :: run in t.markers ==>
         run in t'.markers && t'.markers[run] == t.markers[run] && Of(run, t'.rows) == Of(run, t.rows)
  }

  ghost predicate Evolves(jobs: Jobs, s: State, s': State) {
    (forall id <- s.tables :: id in s'.tables && Keeps(jobs, s.tables[id], s'.tables[id]))
    && (forall run <- s.receipts :: run in s'.receipts && s'.receipts[run] == s.receipts[run])
    && (forall run <- s.done :: run in s'.done && s'.done[run] == s.done[run])
  }

  lemma EvolvesTransitive(jobs: Jobs, a: State, b: State, c: State)
    requires Evolves(jobs, a, b) && Evolves(jobs, b, c)
    ensures Evolves(jobs, a, c)
  {
  }

  lemma AppendedOk(jobs: Jobs, t: Table, run: Run, e: Entry)
    requires run in jobs && e in jobs[run].entries && Sound(e) && run !in t.markers && TableOk(jobs, TableOf(e), t)
    ensures TableOk(jobs, TableOf(e), Appended(t, run, jobs[run], e))
    ensures Keeps(jobs, t, Appended(t, run, jobs[run], e))
  {
    var t' := Appended(t, run, jobs[run], e);
    forall other | other in jobs
      ensures Of(other, t'.rows) == if other == run then Contents(e.parts) else Of(other, t.rows)
      ensures RunOk(jobs, TableOf(e), t', other)
    {
      assert RunOk(jobs, TableOf(e), t, other) && RunOk(jobs, TableOf(e), t, run);
      OfConcat(other, t.rows, Tagged(run, Contents(e.parts)));
      OfTagged(run, other, Contents(e.parts));
      if other != run && other in t.markers {
        var x :| x in jobs[other].entries && TableOf(x) == TableOf(e) && Sound(x) && Of(other, t.rows) == Contents(x.parts)
          && t.markers[other] == Receipt(TableOf(e), t.uuid, t.markers[other].snapshot, x.rows, jobs[other].digest);
      }
    }
  }

  lemma RespectsOk(jobs: Jobs, id: TableId, t: Table, t': Table)
    requires TableOk(jobs, id, t) && Respects(jobs, t, t')
    ensures TableOk(jobs, id, t') && Keeps(jobs, t, t')
  {
    forall run | run in jobs ensures RunOk(jobs, id, t', run) { assert RunOk(jobs, id, t, run); }
  }

  lemma {:induction false} SameReceipts(jobs: Jobs, s: State, s': State, run: Run, entries: seq<Entry>)
    requires run in jobs && Evolves(jobs, s, s') && forall e <- entries :: Delivered(s, run, e)
    ensures forall e <- entries :: Delivered(s', run, e)
    ensures ReceiptsOf(s', run, entries) == ReceiptsOf(s, run, entries)
  {
    if entries != [] {
      var n := |entries| - 1;
      assert forall e <- entries[..n] :: e in entries;
      SameReceipts(jobs, s, s', run, entries[..n]);
      assert entries[n] in entries;
    }
  }

  /** A receipt stays right whatever happens to the tables. */
  lemma ReceiptsStay(jobs: Jobs, s: State, s': State)
    requires Inv(jobs, s) && Evolves(jobs, s, s') && s'.receipts == s.receipts
    ensures forall run <- s'.receipts :: ReceiptOk(jobs, s', run)
  {
    forall run | run in s'.receipts ensures ReceiptOk(jobs, s', run) {
      assert ReceiptOk(jobs, s, run);
      if run in jobs { SameReceipts(jobs, s, s', run, jobs[run].entries); }
    }
  }

  lemma TableStep(jobs: Jobs, s: State, id: TableId, t': Table)
    requires Inv(jobs, s) && TableOk(jobs, id, t') && (id in s.tables ==> Keeps(jobs, s.tables[id], t'))
    ensures var s' := s.(tables := s.tables[id := t']); Inv(jobs, s') && Evolves(jobs, s, s')
  {
    ReceiptsStay(jobs, s, s.(tables := s.tables[id := t']));
  }

  lemma RecordStep(jobs: Jobs, s: State, run: Run)
    requires Inv(jobs, s) && run in jobs && run !in s.receipts && AllDelivered(s, run, jobs[run])
    ensures var s' := s.(receipts := s.receipts[run := ManifestOf(s, run, jobs[run])]);
      Inv(jobs, s') && Evolves(jobs, s, s')
  {
    var s' := s.(receipts := s.receipts[run := ManifestOf(s, run, jobs[run])]);
    assert Evolves(jobs, s, s');
    forall other | other in s'.receipts ensures ReceiptOk(jobs, s', other) {
      if other in jobs {
        if other != run { assert ReceiptOk(jobs, s, other); }
        SameReceipts(jobs, s, s', other, jobs[other].entries);
      }
    }
  }

  /** Every step of every process keeps the invariant, and keeps what is already delivered. */
  lemma StepKeeps(jobs: Jobs, s: State, e: Event)
    requires Inv(jobs, s) && Allowed(jobs, s, e)
    ensures Inv(jobs, Step(jobs, s, e)) && Evolves(jobs, s, Step(jobs, s, e))
  {
    match e {
      case Create(id, t) =>
        TableStep(jobs, s, id, t);
      case Deliver(run, entry) =>
        AppendedOk(jobs, s.tables[TableOf(entry)], run, entry);
        TableStep(jobs, s, TableOf(entry), Appended(s.tables[TableOf(entry)], run, jobs[run], entry));
      case Foreign(id, t) =>
        RespectsOk(jobs, id, s.tables[id], t);
        TableStep(jobs, s, id, t);
      case Record(run) =>
        RecordStep(jobs, s, run);
      case Finish(run) =>
        ReceiptsStay(jobs, s, Step(jobs, s, e));
    }
  }

  // ---------------------------------------------------------------- whole runs

  ghost predicate Permitted(jobs: Jobs, s: State, events: seq<Event>)
    decreases |events|
  {
    events == [] || (Allowed(jobs, s, events[0]) && Permitted(jobs, Step(jobs, s, events[0]), events[1..]))
  }

  ghost function After(jobs: Jobs, s: State, events: seq<Event>): State
    requires Permitted(jobs, s, events)
    decreases |events|
  {
    if events == [] then s else After(jobs, Step(jobs, s, events[0]), events[1..])
  }

  lemma {:induction false} RunKeeps(jobs: Jobs, s: State, events: seq<Event>)
    requires Inv(jobs, s) && Permitted(jobs, s, events)
    ensures Inv(jobs, After(jobs, s, events)) && Evolves(jobs, s, After(jobs, s, events))
    decreases |events|
  {
    if events != [] {
      StepKeeps(jobs, s, events[0]);
      RunKeeps(jobs, Step(jobs, s, events[0]), events[1..]);
      EvolvesTransitive(jobs, s, Step(jobs, s, events[0]), After(jobs, s, events));
    }
  }

  /** The run's rows in a table are those of one of its entries, once and in order, with the marker, and none without. */
  ghost predicate Once(job: Job, s: State, run: Run, id: TableId)
    requires id in s.tables
  {
    var t := s.tables[id];
    if run !in t.markers then Of(run, t.rows) == []
    else exists f <- job.entries :: TableOf(f) == id && Sound(f) && Of(run, t.rows) == Contents(f.parts)
  }

  /**
   * In every state that publishers, crashed publishers and other writers can reach from an empty catalog, a table
   * holds the rows of an entry of the run once and in order if it has the run's marker, and no row of it otherwise.
   */
  lemma ExactlyOnce(jobs: Jobs, events: seq<Event>, run: Run, id: TableId)
    requires run in jobs && Permitted(jobs, START, events) && id in After(jobs, START, events).tables
    ensures Once(jobs[run], After(jobs, START, events), run, id)
  {
    RunKeeps(jobs, START, events);
    assert RunOk(jobs, id, After(jobs, START, events).tables[id], run);
  }

  /** The rows found under an entry's table are the entry's own. */
  ghost predicate OwnRows(s: State, run: Run, e: Entry) {
    Delivered(s, run, e) ==> Of(run, s.tables[TableOf(e)].rows) == Contents(e.parts)
  }

  /** Entries of the job that go to the same table bring the same rows. */
  ghost predicate Unambiguous(job: Job, e: Entry) {
    forall f <- job.entries :: TableOf(f) == TableOf(e) && Sound(f) ==> Contents(f.parts) == Contents(e.parts)
  }

  ghost predicate AlwaysOwn(jobs: Jobs, run: Run, e: Entry) {
    forall events :: Permitted(jobs, START, events) ==> OwnRows(After(jobs, START, events), run, e)
  }

  /** A run that delivers this entry first. */
  lemma DeliversFirst(jobs: Jobs, run: Run, f: Entry) returns (events: seq<Event>)
    requires run in jobs && f in jobs[run].entries && Sound(f)
    ensures Permitted(jobs, START, events) && Delivered(After(jobs, START, events), run, f)
    ensures Of(run, After(jobs, START, events).tables[TableOf(f)].rows) == Contents(f.parts)
  {
    var t := Table(0, 0, "", f.schema, 0, [], map[]);
    var s := Step(jobs, START, Create(TableOf(f), t));
    events := [Create(TableOf(f), t), Deliver(run, f)];
    assert events[1..] == [Deliver(run, f)] && events[1..][1..] == [];
    assert After(jobs, START, events) == After(jobs, s, events[1..]) == Step(jobs, s, Deliver(run, f));
    OfTagged(run, run, Contents(f.parts));
    assert t.rows + Tagged(run, Contents(f.parts)) == Tagged(run, Contents(f.parts));
  }

  /** Every delivery of an entry leaves its own rows exactly if the entries that share its table bring the same rows. */
  lemma OwnRowsExactly(jobs: Jobs, run: Run, e: Entry)
    requires run in jobs
    ensures AlwaysOwn(jobs, run, e) <==> Unambiguous(jobs[run], e)
  {
    if Unambiguous(jobs[run], e) {
      forall events | Permitted(jobs, START, events) ensures OwnRows(After(jobs, START, events), run, e) {
        if Delivered(After(jobs, START, events), run, e) { ExactlyOnce(jobs, events, run, TableOf(e)); }
      }
    } else {
      var f :| f in jobs[run].entries && TableOf(f) == TableOf(e) && Sound(f) && Contents(f.parts) != Contents(e.parts);
      var events := DeliversFirst(jobs, run, f);
      assert !OwnRows(After(jobs, START, events), run, e);
    }
  }

  /** Paths of two entries differ by more than leading slashes, or the entries have different schemas. */
  ghost predicate Separate(job: Job) {
    forall i, j :: 0 <= i < j < |job.entries| ==>
      NameOf(job.entries[i].path) != NameOf(job.entries[j].path) || job.entries[i].schema != job.entries[j].schema
  }

  lemma SeparateSuffices(job: Job, e: Entry)
    requires Separate(job) && e in job.entries
    ensures Unambiguous(job, e)
  {
    forall f | f in job.entries && TableOf(f) == TableOf(e) ensures f == e {
      var i :| 0 <= i < |job.entries| && job.entries[i] == f;
      var j :| 0 <= j < |job.entries| && job.entries[j] == e;
      assert i == j;
    }
  }

  /** Two tables at "/a" and "//a" of one schema: different paths, one table, and only the rows of one of them. */
  lemma SlashesCollide(schema: Schema, a: seq<Part>, b: seq<Part>)
    requires PartsOk(a, schema) && PartsOk(b, schema) && Contents(a) != Contents(b)
    ensures var e := Entry("/a", true, schema, |Contents(a)|, a);
      var f := Entry("//a", true, schema, |Contents(b)|, b);
      !AlwaysOwn(map[0 := Job(0, 0, [e, f])], 0, e)
  {
    var e, f := Entry("/a", true, schema, |Contents(a)|, a), Entry("//a", true, schema, |Contents(b)|, b);
    assert "/a"[1..] == "a" && "//a"[1..] == "/a" && NameOf("a") == "a";
    assert TableOf(f) == TableOf(e) && Sound(f) && f in [e, f];
    OwnRowsExactly(map[0 := Job(0, 0, [e, f])], 0, e);
  }

  /** What a marker says: it was delivered from one of the run's entries of that table. */
  lemma MarkerIs(jobs: Jobs, id: TableId, t: Table, run: Run) returns (f: Entry)
    requires run in jobs && TableOk(jobs, id, t) && run in t.markers
    ensures f in jobs[run].entries && TableOf(f) == id && Sound(f) && Of(run, t.rows) == Contents(f.parts)
    ensures t.markers[run] == Receipt(id, t.uuid, t.markers[run].snapshot, f.rows, jobs[run].digest)
  {
    assert RunOk(jobs, id, t, run);
    f :| f in jobs[run].entries && TableOf(f) == id && Sound(f) && Of(run, t.rows) == Contents(f.parts)
      && t.markers[run] == Receipt(id, t.uuid, t.markers[run].snapshot, f.rows, jobs[run].digest);
  }

  /** A recorded receipt means that every table of the run is delivered, in that state and in every later one. */
  lemma ReceiptMeansDelivered(jobs: Jobs, events: seq<Event>, more: seq<Event>, run: Run)
    requires run in jobs && Permitted(jobs, START, events)
    requires var s := After(jobs, START, events); Permitted(jobs, s, more) && run in s.receipts
    ensures var s := After(jobs, START, events);
      var s' := After(jobs, s, more);
      AllDelivered(s', run, jobs[run]) && run in s'.receipts
      && s'.receipts[run] == s.receipts[run] == ManifestOf(s', run, jobs[run])
  {
    var s := After(jobs, START, events);
    RunKeeps(jobs, START, events);
    RunKeeps(jobs, s, more);
    assert ReceiptOk(jobs, After(jobs, s, more), run);
  }
}
