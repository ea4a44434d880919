/** One publisher of a committed result against the shared catalog (apps/api/app/iceberg.py). */
module Publishing {
  import opened Common
  import opened Delivery

  const ATTEMPTS: nat := 3

  datatype Failure =
    | NotDone | NotPartitioned | BadTableName | TableMismatch | MarkerConflict
    | ReadFailed | PartitionMismatch | UnsafeCast | TotalMismatch
    | CommitFailed | CatalogError | Crashed | ResultChanged | ReceiptDiffers

  /**
   * What goes wrong outside: a crash after the commit of a path, partitions that cannot be read, by path, attempt and
   * position, and catalog calls that fail, by path and number of the call.
   */
  datatype Faults = Faults(crash: string -> bool, unread: (string, nat, nat) -> bool, down: (string, nat) -> bool)

  const NONE := Faults(path => false, (path, attempt, part) => false, (path, call) => false)

  function VersionOf(tables: map<TableId, Table>, id: TableId): nat { if id in tables then tables[id].version else 0 }

  /** Another entry of the job goes to the same table with another number of rows. */
  predicate Rivalled(job: Job, e: Entry) { exists f <- job.entries :: TableOf(f) == TableOf(e) && f.rows != e.rows }

  /** The entry can be delivered: well described, sound, without a rival, and no table of another scope in its place. */
  predicate Fits(scope: string, s: State, job: Job, e: Entry) {
    e.partitioned && PlainName(NameOf(e.path)) && Sound(e) && !Rivalled(job, e)
    && (TableOf(e) in s.tables ==> s.tables[TableOf(e)].scope == scope && s.tables[TableOf(e)].schema == e.schema)
  }

  ghost predicate Ready(scope: string, s: State, run: Run, job: Job) {
    run in s.done && forall e <- job.entries :: Fits(scope, s, job, e)
  }

  /** The failure comes from outside. */
  predicate Outside(error: Failure) { error in {ReadFailed, CatalogError, Crashed} }

  /** Why the delivery of one entry, begun in s, is refused in s'. */
  ghost predicate Causes(error: Failure, scope: string, s: State, s': State, run: Run, job: Job, e: Entry, faults: Faults) {
    match error
    case NotPartitioned => !e.partitioned
    case BadTableName => !PlainName(NameOf(e.path))
    case TableMismatch =>
      TableOf(e) in s'.tables && (s'.tables[TableOf(e)].scope != scope || s'.tables[TableOf(e)].schema != e.schema)
    case MarkerConflict => Rivalled(job, e)
    case ReadFailed => exists attempt, part :: faults.unread(e.path, attempt, part)
    case PartitionMismatch => !Sound(e)
    case UnsafeCast => !Sound(e)
    case TotalMismatch => !Sound(e)
    case CommitFailed =>
      TableOf(e) in s'.tables && s'.tables[TableOf(e)].version >= ATTEMPTS + VersionOf(s.tables, TableOf(e))
    case CatalogError => exists call :: faults.down(e.path, call)
    case Crashed => faults.crash(e.path) && Delivered(s', run, e)
    case _ => false
  }

  /** Some entry of the run causes the refusal. */
  ghost predicate Explained(error: Failure, scope: string, s: State, s': State, run: Run, job: Job, faults: Faults) {
    exists e <- job.entries :: Causes(error, scope, s, s', run, job, e, faults)
  }

  lemma NothingOutside(error: Failure, scope: string, s: State, s': State, run: Run, job: Job)
    requires Explained(error, scope, s, s', run, job, NONE)
    ensures !Outside(error)
  {
  }

  /** Every entry is delivered and these are the receipts. */
  ghost predicate Found(s: State, run: Run, entries: seq<Entry>, found: map<string, Receipt>) {
    (forall e <- entries :: Delivered(s, run, e)) && found == ReceiptsOf(s, run, entries)
  }

  lemma FoundStays(jobs: Jobs, s: State, s': State, run: Run, entries: seq<Entry>, found: map<string, Receipt>)
    requires run in jobs && Evolves(jobs, s, s') && Found(s, run, entries, found)
    ensures Found(s', run, entries, found)
  {
    SameReceipts(jobs, s, s', run, entries);
  }

  lemma FoundNext(s: State, run: Run, entries: seq<Entry>, k: nat, found: map<string, Receipt>)
    requires k < |entries| && Found(s, run, entries[..k], found) && Delivered(s, run, entries[k])
    ensures Found(s, run, entries[..k + 1],
                  found[entries[k].path := s.tables[TableOf(entries[k])].markers[run]])
  {
    assert entries[..k + 1][..k] == entries[..k] && entries[..k + 1] == entries[..k] + [entries[k]];
  }

  /** Only this table can differ. */
  ghost predicate SameBut(s: State, s': State, id: TableId) {
    s'.done == s.done && forall other <- s'.tables :: other != id ==> other in s.tables && s'.tables[other] == s.tables[other]
  }

  /** Delivering one entry, with nobody else around, leaves the run ready. */
  lemma ReadyStays(scope: string, s: State, s': State, run: Run, job: Job, e: Entry)
    requires Ready(scope, s, run, job) && Fits(scope, s', job, e) && SameBut(s, s', TableOf(e))
    ensures Ready(scope, s', run, job)
  {
    forall x | x in job.entries ensures Fits(scope, s', job, x) { assert Fits(scope, s, job, x); }
  }

  lemma DeliveredAlone(scope: string, s0: State, s: State, s': State, run: Run, job: Job, e: Entry)
    requires TableOf(e) in s.tables && SameBut(s0, s, TableOf(e)) && s'.done == s.done
    requires s'.tables == s.tables
             || s'.tables == s.tables[TableOf(e) := Appended(s.tables[TableOf(e)], run, job, e)]
    ensures SameBut(s0, s', TableOf(e)) && (Fits(scope, s, job, e) ==> Fits(scope, s', job, e))
  {
  }

  /** A delivered entry's table holds the rows of an entry of the run, once and in order: its own if none is ambiguous. */
  lemma DeliveredRows(jobs: Jobs, s: State, run: Run)
    requires Inv(jobs, s) && run in jobs && AllDelivered(s, run, jobs[run])
    ensures forall e <- jobs[run].entries ::
      TableOf(e) in s.tables && run in s.tables[TableOf(e)].markers && Once(jobs[run], s, run, TableOf(e))
      && (Unambiguous(jobs[run], e) ==> OwnRows(s, run, e))
  {
    forall e | e in jobs[run].entries
      ensures TableOf(e) in s.tables && run in s.tables[TableOf(e)].markers && Once(jobs[run], s, run, TableOf(e))
      ensures Unambiguous(jobs[run], e) ==> OwnRows(s, run, e)
    {
      assert Delivered(s, run, e);
      var f := MarkerIs(jobs, TableOf(e), s.tables[TableOf(e)], run);
    }
  }

  lemma CauseStays(jobs: Jobs, error: Failure, scope: string, s0: State, s: State, s': State, run: Run, job: Job, e: Entry,
                   faults: Faults)
    requires Evolves(jobs, s0, s) && Causes(error, scope, s, s', run, job, e, faults)
    ensures Causes(error, scope, s0, s', run, job, e, faults)
  {
    assert TableOf(e) in s0.tables ==> Keeps(jobs, s0.tables[TableOf(e)], s.tables[TableOf(e)]);
  }

  class Catalog {
    const jobs: Jobs
    const scope: string
    var tables: map<TableId, Table>
    var receipts: map<Run, Manifest>
    /** The result digest of every job that is done. */
    var done: map<Run, nat>

    ghost predicate Valid()
      reads this
    {
      Inv(jobs, Now())
    }

    ghost function Now(): State
      reads this
    {
      State(tables, receipts, done)
    }

    twostate predicate Grows()
      reads this
    {
      Evolves(jobs, old(Now()), Now())
    }

    /** Others publish, write and finish jobs, unless it is quiet. The body does nothing; the contract is all. */
    method Interfere(ghost quiet: bool)
      requires Valid()
      modifies this
      ensures Valid() && Grows() && (quiet ==> Now() == old(Now()))
    {
    }

    /** Creates the table unless it exists, then leaves room for others. */
    method CreateTable(e: Entry, faults: Faults, ghost quiet: bool) returns (failed: bool)
      requires Valid()
      modifies this
      ensures Valid() && Grows() && failed == faults.down(e.path, 0) && (!failed ==> TableOf(e) in tables)
      ensures quiet ==> SameBut(old(Now()), Now(), TableOf(e))
      ensures forall job :: quiet && old(Fits(scope, Now(), job, e)) ==> Fits(scope, Now(), job, e)
    {
      if faults.down(e.path, 0) { return true; }
      if TableOf(e) !in tables {
        var t := Table(0, |tables|, scope, e.schema, 0, [], map[]);
        StepKeeps(jobs, Now(), Create(TableOf(e), t));
        tables := tables[TableOf(e) := t];
      }
      label created:
      Interfere(quiet);
      assert TableOf(e) in old@created(tables);
      failed := false;
    }

    /** Reads every partition into a transaction over a loaded table. */
    method Stage(e: Entry, unread: nat -> bool) returns (r: Result<seq<Cells>, Failure>)
      ensures r.Ok? <==> Sound(e) && forall k :: 0 <= k < |e.parts| ==> !unread(k)
      ensures r.Ok? ==> r.value == Contents(e.parts)
      ensures r.Refused? ==> if r.error == ReadFailed then exists k :: 0 <= k < |e.parts| && unread(k)
                             else !Sound(e) && r.error in {PartitionMismatch, UnsafeCast, TotalMismatch}
    {
      var staged, total := [], 0;
      for n := 0 to |e.parts|
        invariant staged + Contents(e.parts[n..]) == Contents(e.parts) && total == |staged|
        invariant PartsOk(e.parts, e.schema) <==> PartsOk(e.parts[n..], e.schema)
        invariant forall k :: 0 <= k < n ==> !unread(k)
      {
        var part := e.parts[n];
        assert e.parts[n..][0] == part && e.parts[n..][1..] == e.parts[n + 1..];
        if unread(n) { return Refused(ReadFailed); }
        if |part.cells| != part.rows || part.columns != Columns(e.schema) { return Refused(PartitionMismatch); }
        if !part.castable { return Refused(UnsafeCast); }
        Associative(staged, part.cells, Contents(e.parts[n + 1..]));
        staged := staged + part.cells;
        total := total + |part.cells|;
      }
      assert e.parts[|e.parts|..] == [] && staged + [] == staged;
      if total != e.rows { return Refused(TotalMismatch); }
      r := Ok(staged);
    }

    /** Commits data and marker at once if the table is still at the loaded version. */
    method Commit(run: Run, e: Entry, loaded: Table) returns (committed: bool)
      requires Valid() && run in jobs && e in jobs[run].entries && Sound(e)
      requires TableOf(e) in tables && Keeps(jobs, loaded, tables[TableOf(e)]) && run !in loaded.markers
      modifies this`tables
      ensures Valid() && Grows()
      ensures committed <==> old(tables[TableOf(e)]).version == loaded.version
      ensures committed ==> tables == old(tables)[TableOf(e) := Appended(loaded, run, jobs[run], e)]
      ensures !committed ==> tables == old(tables)
    {
      if tables[TableOf(e)].version != loaded.version { return false; }
      StepKeeps(jobs, Now(), Deliver(run, e));
      tables := tables[TableOf(e) := Appended(loaded, run, jobs[run], e)];
      committed := true;
    }

    /** The receipt in the run's marker, if it has as many rows; only a rival entry can have left another. */
    method Reuse(run: Run, e: Entry) returns (r: Result<Receipt, Failure>)
      requires Valid() && run in jobs && e in jobs[run].entries && Delivered(Now(), run, e)
      ensures r.Ok? ==> r.value == tables[TableOf(e)].markers[run]
      ensures r.Refused? ==> r.error == MarkerConflict && Rivalled(jobs[run], e)
    {
      ghost var f := MarkerIs(jobs, TableOf(e), tables[TableOf(e)], run);
      var receipt := tables[TableOf(e)].markers[run];
      if receipt.digest != jobs[run].digest || receipt.rows != e.rows {
        assert f.rows != e.rows;
        return Refused(MarkerConflict);
      }
      r := Ok(receipt);
    }

    /** One attempt at a created table: reuses the run's marker, or stages and commits. None is a lost swap. */
    method TryDeliver(run: Run, e: Entry, attempt: nat, faults: Faults, ghost quiet: bool)
      returns (r: Option<Result<Receipt, Failure>>)
      requires Valid() && run in jobs && e in jobs[run].entries && TableOf(e) in tables
      modifies this
      ensures Valid() && Grows() && TableOf(e) in tables
      ensures r.Some? && r.value.Ok? ==> Delivered(Now(), run, e) && r.value.value == tables[TableOf(e)].markers[run]
      ensures r.Some? && r.value.Refused? ==>
        || (r.value.error == CatalogError && exists call :: faults.down(e.path, call))
        || (r.value.error == TableMismatch
            && (tables[TableOf(e)].scope != scope || tables[TableOf(e)].schema != e.schema))
        || (r.value.error == MarkerConflict && Rivalled(jobs[run], e))
        || (r.value.error == ReadFailed && exists part :: faults.unread(e.path, attempt, part))
        || (r.value.error in {PartitionMismatch, UnsafeCast, TotalMismatch} && !Sound(e))
        || (r.value.error == Crashed && faults.crash(e.path) && Delivered(Now(), run, e))
      ensures r.None? ==> !quiet && tables[TableOf(e)].version > old(tables[TableOf(e)].version)
      ensures quiet ==> done == old(done)
      ensures quiet ==> tables == old(tables)
                        || tables == old(tables)[TableOf(e) := Appended(old(tables[TableOf(e)]), run, jobs[run], e)]
      ensures quiet && old(Fits(scope, Now(), jobs[run], e)) ==> r.Some? && (r.value.Ok? || Outside(r.value.error))
    {
      if faults.down(e.path, 2 * attempt + 1) { return Some(Refused(CatalogError)); }
      var loaded := tables[TableOf(e)];
      if loaded.scope != scope || loaded.schema != e.schema { return Some(Refused(TableMismatch)); }
      if run in loaded.markers {
        var receipt := Reuse(run, e);
        return Some(receipt);
      }
      Interfere(quiet);
      label committing:
      var staged := Stage(e, (part: nat) => faults.unread(e.path, attempt, part));
      if staged.Refused? { return Some(Refused(staged.error)); }
      if faults.down(e.path, 2 * attempt + 2) { return Some(Refused(CatalogError)); }
      var committed := Commit(run, e, loaded);
      EvolvesTransitive(jobs, old(Now()), old@committing(Now()), Now());
      if !committed { return None; }
      r := Some(if faults.crash(e.path) then Refused(Crashed) else Ok(tables[TableOf(e)].markers[run]));
    }

    /**
     * Delivers one table, retrying after a lost compare-and-swap. A refusal has its cause: three lost swaps are three
     * commits of others. With nobody else around a fitting entry is delivered, unless something outside fails.
     */
    method DeliverTable(run: Run, e: Entry, faults: Faults, ghost quiet: bool) returns (r: Result<Receipt, Failure>)
      requires Valid() && run in jobs && e in jobs[run].entries
      modifies this
      ensures Valid() && Grows()
      ensures r.Ok? ==> Delivered(Now(), run, e) && r.value == tables[TableOf(e)].markers[run]
      ensures r.Refused? ==> Causes(r.error, scope, old(Now()), Now(), run, jobs[run], e, faults)
      ensures quiet ==> SameBut(old(Now()), Now(), TableOf(e))
      ensures quiet && old(Fits(scope, Now(), jobs[run], e)) ==>
        (r.Ok? || Outside(r.error)) && Fits(scope, Now(), jobs[run], e)
    {
      var failed := CreateTable(e, faults, quiet);
      if failed { return Refused(CatalogError); }
      for attempt := 0 to ATTEMPTS
        invariant Valid() && Grows() && TableOf(e) in tables
        invariant tables[TableOf(e)].version >= attempt + VersionOf(old(tables), TableOf(e))
        invariant quiet ==> attempt == 0 && SameBut(old(Now()), Now(), TableOf(e))
        invariant quiet && old(Fits(scope, Now(), jobs[run], e)) ==> Fits(scope, Now(), jobs[run], e)
      {
        label before:
        var tried := TryDeliver(run, e, attempt, faults, quiet);
        EvolvesTransitive(jobs, old(Now()), old@before(Now()), Now());
        if quiet { DeliveredAlone(scope, old(Now()), old@before(Now()), Now(), run, jobs[run], e); }
        if tried.Some? { return tried.value; }
        label lost:
        Interfere(quiet);
        EvolvesTransitive(jobs, old(Now()), old@lost(Now()), Now());
        assert TableOf(e) in old@lost(tables);
      }
      r := Refused(CommitFailed);
    }

    /** Records the manifest of a delivered run, once, if its job is still done with the result it was made from. */
    method RecordPublication(run: Run, manifest: Manifest) returns (r: Result<Manifest, Failure>)
      requires Valid() && run in jobs && run in done && AllDelivered(Now(), run, jobs[run])
      requires manifest == ManifestOf(Now(), run, jobs[run])
      modifies this`receipts
      ensures Valid() && Grows() && r == Ok(manifest)
      ensures receipts == old(receipts)[run := manifest]
    {
      if done[run] != manifest.digest { return Refused(ResultChanged); }
      if run in receipts {
        assert ReceiptOk(jobs, Now(), run);
        if receipts[run] != manifest { return Refused(ReceiptDiffers); }
        assert receipts == receipts[run := manifest];
        return Ok(manifest);
      }
      StepKeeps(jobs, Now(), Record(run));
      receipts := receipts[run := manifest];
      r := Ok(manifest);
    }

    /** Delivers every table of a run in order. */
    method DeliverAll(run: Run, faults: Faults, ghost quiet: bool) returns (r: Result<map<string, Receipt>, Failure>)
      requires Valid() && run in jobs
      modifies this
      ensures Valid() && Grows()
      ensures r.Ok? ==> Found(Now(), run, jobs[run].entries, r.value)
      ensures r.Refused? ==> Explained(r.error, scope, old(Now()), Now(), run, jobs[run], faults)
      ensures quiet && old(Ready(scope, Now(), run, jobs[run])) ==>
        (r.Ok? || Outside(r.error)) && Ready(scope, Now(), run, jobs[run])
    {
      var entries, found := jobs[run].entries, map[];
      for k := 0 to |entries|
        invariant Valid() && Grows() && Found(Now(), run, entries[..k], found)
        invariant quiet && old(Ready(scope, Now(), run, jobs[run])) ==> Ready(scope, Now(), run, jobs[run])
      {
        var e := entries[k];
        assert e in jobs[run].entries;
        if !e.partitioned {
          assert Causes(NotPartitioned, scope, old(Now()), Now(), run, jobs[run], e, faults);
          return Refused(NotPartitioned);
        }
        if !PlainName(NameOf(e.path)) {
          assert Causes(BadTableName, scope, old(Now()), Now(), run, jobs[run], e, faults);
          return Refused(BadTableName);
        }
        label before:
        var delivered := DeliverTable(run, e, faults, quiet);
        assert Grows() by { EvolvesTransitive(jobs, old(Now()), old@before(Now()), Now()); }
        if quiet && Ready(scope, old@before(Now()), run, jobs[run]) {
          ReadyStays(scope, old@before(Now()), Now(), run, jobs[run], e);
        }
        if delivered.Refused? {
          CauseStays(jobs, delivered.error, scope, old(Now()), old@before(Now()), Now(), run, jobs[run], e, faults);
          return Refused(delivered.error);
        }
        FoundStays(jobs, old@before(Now()), Now(), run, entries[..k], found);
        FoundNext(Now(), run, entries, k, found);
        found := found[e.path := delivered.value];
      }
      assert entries[..|entries|] == entries;
      r := Ok(found);
    }

    /**
     * Publishes a run that is done: every table, then the receipt. Other publishers of the same run may be anywhere in
     * between. There is never a conflict with what another publisher of the run delivered or recorded. From any state in
     * which the run is ready, with nobody else around, publication finishes unless something outside fails.
     */
    method Publish(run: Run, faults: Faults, ghost quiet: bool) returns (r: Result<Manifest, Failure>)
      requires Valid() && run in jobs
      modifies this
      ensures Valid() && Grows()
      ensures r.Ok? ==> AllDelivered(Now(), run, jobs[run]) && run in receipts && r.value == receipts[run]
      ensures r == Refused(NotDone) <==> run !in old(done)
      ensures r.Refused? && r.error != NotDone ==>
        Explained(r.error, scope, old(Now()), Now(), run, jobs[run], faults)
      ensures quiet && old(Ready(scope, Now(), run, jobs[run])) ==>
        (r.Ok? || Outside(r.error)) && Ready(scope, Now(), run, jobs[run])
    {
      if run !in done { return Refused(NotDone); }
      var delivered := DeliverAll(run, faults, quiet);
      if delivered.Refused? { return Refused(delivered.error); }
      var manifest := Manifest(run, jobs[run].revision, jobs[run].digest, delivered.value);
      label before:
      Interfere(quiet);
      FoundStays(jobs, old@before(Now()), Now(), run, jobs[run].entries, delivered.value);
      EvolvesTransitive(jobs, old(Now()), old@before(Now()), Now());
      label recording:
      r := RecordPublication(run, manifest);
      EvolvesTransitive(jobs, old(Now()), old@recording(Now()), Now());
    }
  }

  /**
   * A publication in which anything outside may fail, and its rerun. Whatever happened before, between and after: no row
   * twice, none missing. If nobody else acts from the state `mid` in which the rerun starts and the run is ready there,
   * the rerun finishes; a first publication that nobody disturbs leaves a ready run ready.
   */
  method CrashAndRerun(c: Catalog, run: Run, faults: Faults, ghost alone: bool, ghost quiet: bool)
    returns (first: Result<Manifest, Failure>, second: Result<Manifest, Failure>, ghost mid: State)
    requires c.Valid() && run in c.jobs
    modifies c
    ensures c.Valid() && Inv(c.jobs, mid) && Evolves(c.jobs, old(c.Now()), mid) && Evolves(c.jobs, mid, c.Now())
    ensures first.Ok? && second.Ok? ==> first == second
    ensures second.Ok? ==> forall e <- c.jobs[run].entries ::
      TableOf(e) in c.tables && run in c.tables[TableOf(e)].markers && Once(c.jobs[run], c.Now(), run, TableOf(e))
      && (Unambiguous(c.jobs[run], e) ==> OwnRows(c.Now(), run, e))
    ensures first.Refused? && first.error != NotDone ==> exists s ::
      Evolves(c.jobs, s, mid) && Explained(first.error, c.scope, old(c.Now()), s, run, c.jobs[run], faults)
    ensures alone && old(Ready(c.scope, c.Now(), run, c.jobs[run])) ==>
      (first.Ok? || Outside(first.error)) && Ready(c.scope, mid, run, c.jobs[run])
    ensures quiet && Ready(c.scope, mid, run, c.jobs[run]) ==> second.Ok?
    ensures second == Refused(NotDone) <==> run !in mid.done
    ensures second.Refused? && second.error != NotDone ==>
      Explained(second.error, c.scope, mid, c.Now(), run, c.jobs[run], NONE)
  {
    first := c.Publish(run, faults, alone);
    label one:
    c.Interfere(alone);
    EvolvesTransitive(c.jobs, old(c.Now()), old@one(c.Now()), c.Now());
    mid := c.Now();
    second := c.Publish(run, NONE, quiet);
    assert first.Ok? ==> run in mid.receipts && mid.receipts[run] == first.value;
    if second.Ok? {
      DeliveredRows(c.jobs, c.Now(), run);
    } else if second.error != NotDone {
      NothingOutside(second.error, c.scope, mid, c.Now(), run, c.jobs[run]);
    }
  }
}
