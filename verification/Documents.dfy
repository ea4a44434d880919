/** Named documents committed as revisions of a native workspace (apps/api-rust/src/repo.rs). */
module Documents {
  import opened Common

  /** A native snapshot object. Its descriptor is its content address, so the content itself stands for it. */
  datatype Snapshot = Snapshot(revision: int, documents: map<string, nat>)

  datatype Edit = Edit(name: string, document: nat)

  datatype Refusal = MalformedName | LegacyWorkspace | UnknownRevision | MissingObject | IdentityDiffers
                   | NotInitialized | StaleRevision

  /** How far a commit has got: nothing done, workspace known to be native, row read, object read, object stored, over. */
  datatype Stage =
    | Idle
    | Known
    | Rowed(manifest: Snapshot)
    | Holds(snapshot: Snapshot)
    | Stored(next: Snapshot)
    | Ended(outcome: Result<int, Refusal>)

  const LAST: nat := 5

  function Rank(at: Stage): (r: nat)
    ensures r <= LAST && (r == LAST <==> at.Ended?)
  {
    match at case Idle => 0 case Known => 1 case Rowed(_) => 2 case Holds(_) => 3 case Stored(_) => 4 case Ended(_) => LAST
  }

  predicate Won(at: Stage) { at.Ended? && at.outcome.Ok? }

  predicate ValidName(name: string) {
    1 <= |name| <= 64 &&
    forall c <- name :: ('A' <= c <= 'Z') || ('a' <= c <= 'z') || ('0' <= c <= '9') || c in "._-"
  }

  /** The sequential application of accepted edits to the empty snapshot. */
  function Replay(log: seq<Edit>): map<string, nat> {
    if log == [] then map[]
    else Replay(log[..|log| - 1])[log[|log| - 1].name := log[|log| - 1].document]
  }

  /** One edit per revision, in a chain without gaps; every revision row holds the replay of its prefix. */
  ghost predicate Chain(head: int, rows: map<int, Snapshot>, log: seq<Edit>) {
    && head == |log|
    && (forall n :: n in rows <==> 0 <= n <= head)
    && (forall n :: 0 <= n <= head ==> rows[n] == Snapshot(n, Replay(log[..n])))
  }

  lemma ChainExtends(head: int, rows: map<int, Snapshot>, log: seq<Edit>, e: Edit)
    requires Chain(head, rows, log)
    ensures Chain(head + 1, rows[head + 1 := Snapshot(head + 1, Replay(log)[e.name := e.document])], log + [e])
  {
    var next := rows[head + 1 := Snapshot(head + 1, Replay(log)[e.name := e.document])];
    forall n | 0 <= n <= head + 1 ensures next[n] == Snapshot(n, Replay((log + [e])[..n])) {
      if n <= head {
        assert (log + [e])[..n] == log[..n];
      } else {
        assert (log + [e])[..n] == log + [e];
        ReplayNext(log, e);
        assert log[..head] == log;
      }
    }
  }

  lemma ReplayNext(log: seq<Edit>, e: Edit)
    ensures Replay(log + [e]) == Replay(log)[e.name := e.document]
  {
    assert (log + [e])[..|log|] == log;
  }

  /** The rows and objects of a workspace at one instant. */
  datatype World = World(created: bool, native: bool, rows: map<int, Snapshot>, objects: set<Snapshot>, log: seq<Edit>)

  /** What the processes of a workspace do to it between any two instants. */
  ghost predicate Extends(a: World, b: World) {
    && (a.native ==> b.native && forall n <- a.rows :: n in b.rows && b.rows[n] == a.rows[n])
    && a.objects <= b.objects && a.log <= b.log && (a.created ==> b.created && b.native == a.native)
  }

  lemma ExtendsTransitive(a: World, b: World, c: World)
    requires Extends(a, b) && Extends(b, c)
    ensures Extends(a, c)
  {
  }

  /** What a commit that has got this far knows. */
  ghost predicate Holding(w: World, expected: int, e: Edit, at: Stage) {
    match at
    case Idle => true
    case Known => w.native && ValidName(e.name)
    case Rowed(m) =>
      w.native && 0 <= expected <= |w.log| && m in w.objects && m == Snapshot(expected, Replay(w.log[..expected]))
    case Holds(m) => w.native && 0 <= expected <= |w.log| && m == Snapshot(expected, Replay(w.log[..expected]))
    case Stored(next) =>
      w.native && 0 <= expected <= |w.log| && next in w.objects
      && next == Snapshot(expected + 1, Replay(w.log[..expected])[e.name := e.document])
    case Ended(Ok(n)) => w.native && n == expected + 1 && 0 <= expected < |w.log| && w.log[expected] == e
    case Ended(Refused(error)) =>
      || (error == MalformedName && !ValidName(e.name))
      || error in {LegacyWorkspace, UnknownRevision}
      || (error == StaleRevision && w.native && 0 <= expected < |w.log|)
  }

  /** What a commit knows stays so whatever other processes do. */
  lemma HoldingStays(w: World, w': World, expected: int, e: Edit, at: Stage)
    requires Extends(w, w') && Holding(w, expected, e, at)
    ensures Holding(w', expected, e, at)
  {
    if 0 <= expected <= |w.log| { assert w'.log[..expected] == w.log[..expected]; }
  }

  /** What one stage of one commit does. */
  ghost predicate Steps(w: World, w': World, expected: int, e: Edit, at: Stage, next: Stage) {
    && Extends(w, w') && Holding(w', expected, e, next)
    && (if at.Ended? then next == at else Rank(next) > Rank(at))
    && (if Won(next) && !Won(at) then |w.log| == expected && w'.log == w.log + [e] else w'.log == w.log)
    && (w.native && ValidName(e.name) && 0 <= expected <= |w.log| && next.Ended? && !at.Ended? ==>
          Won(next) || (next == Ended(Refused(StaleRevision)) && |w.log| > expected))
  }

  /** Every commit knows what its stage says, and at most one of them succeeded. */
  ghost predicate Racing(w: World, expected: int, edits: seq<Edit>, stages: seq<Stage>) {
    && |stages| == |edits|
    && (forall i :: 0 <= i < |edits| ==> Holding(w, expected, edits[i], stages[i]))
    && (forall i, j :: 0 <= i < j < |edits| ==> !(Won(stages[i]) && Won(stages[j])))
  }

  /**
   * Nothing was added and no commit is over, or just one of these edits was added, its commit succeeded and the
   * others that are over were refused as stale.
   */
  ghost predicate Decided(start: World, w: World, edits: seq<Edit>, stages: seq<Stage>)
    requires |stages| == |edits|
  {
    || (w.log == start.log && forall at <- stages :: !at.Ended?)
    || ((exists i :: 0 <= i < |edits| && Won(stages[i]) && w.log == start.log + [edits[i]])
        && forall at <- stages :: at.Ended? ==> Won(at) || at == Ended(Refused(StaleRevision)))
  }

  lemma RacingStays(w: World, w': World, expected: int, edits: seq<Edit>, stages: seq<Stage>)
    requires Racing(w, expected, edits, stages) && Extends(w, w')
    ensures Racing(w', expected, edits, stages)
  {
    forall i | 0 <= i < |edits| ensures Holding(w', expected, edits[i], stages[i]) {
      HoldingStays(w, w', expected, edits[i], stages[i]);
    }
  }

  lemma RacingSteps(w: World, w': World, expected: int, edits: seq<Edit>, stages: seq<Stage>, i: nat, next: Stage)
    requires Racing(w, expected, edits, stages) && i < |edits| && Steps(w, w', expected, edits[i], stages[i], next)
    ensures Racing(w', expected, edits, stages[i := next])
  {
    RacingStays(w, w', expected, edits, stages);
    forall j | 0 <= j < |edits| && j != i ensures !(Won(next) && Won(stages[j])) {
      assert Holding(w, expected, edits[j], stages[j]) && Holding(w, expected, edits[i], stages[i]);
      assert j < i ==> !(Won(stages[j]) && Won(stages[i]));
      assert i < j ==> !(Won(stages[i]) && Won(stages[j]));
    }
  }

  lemma DecidedSteps(start: World, w: World, w': World, expected: int, edits: seq<Edit>, stages: seq<Stage>, i: nat,
                     next: Stage)
    requires |stages| == |edits| && i < |edits| && Steps(w, w', expected, edits[i], stages[i], next)
    requires w.native && |start.log| == expected && ValidName(edits[i].name) && Decided(start, w, edits, stages)
    ensures Decided(start, w', edits, stages[i := next])
  {
    if w.log == start.log && forall at <- stages :: !at.Ended? {
      assert !stages[i].Ended?;
      if !Won(next) {
        assert !next.Ended?;
      } else {
        assert Won(stages[i := next][i]) && w'.log == start.log + [edits[i]];
      }
    } else {
      var j :| 0 <= j < |edits| && Won(stages[j]) && w.log == start.log + [edits[j]];
      assert Won(stages[i := next][j]);
    }
  }

  class Workspace {
    var created: bool
    var native: bool
    var head: int
    /** The revision rows. Rows of a legacy workspace belong to the Python service. */
    var rows: map<int, Snapshot>
    var objects: set<Snapshot>
    ghost var log: seq<Edit>

    ghost predicate Valid()
      reads this
    {
      && (native ==> created && Chain(head, rows, log) && forall n :: n in rows ==> rows[n] in objects)
      && (!native ==> log == [])
    }

    ghost function Now(): World
      reads this
    {
      World(created, native, rows, objects, log)
    }

    twostate predicate Grows()
      reads this
    {
      Extends(old(Now()), Now())
    }

    /** Other processes initialize, store objects and, unless it is quiet, commit. The body does nothing. */
    method Interfere(ghost quiet: bool)
      requires Valid()
      modifies this
      ensures Valid() && Grows() && (quiet ==> log == old(log))
    {
    }

    method Put(s: Snapshot)
      requires Valid()
      modifies this`objects
      ensures Valid() && Grows() && objects == old(objects) + {s}
    {
      objects := objects + {s};
    }

    /** Creates a native workspace at revision 0, or leaves an existing one alone. */
    method Initialize() returns (isNative: bool)
      requires Valid()
      modifies this
      ensures Valid() && Grows() && created && isNative == native
      ensures !old(created) && log == [] && native ==> head == 0
    {
      if created { return native; }
      var empty := Snapshot(0, map[]);
      Put(empty);
      Interfere(false);
      if !created {
        created, native, head, rows := true, true, 0, map[0 := empty];
        log := [];
        Put(empty);
      }
      isNative := native;
    }

    /** The row of a revision. */
    method ReadRow(number: int) returns (r: Result<Snapshot, Refusal>)
      requires Valid()
      ensures native ==> (r.Ok? <==> 0 <= number <= head)
      ensures r.Ok? && native ==> r.value in objects && r.value == Snapshot(number, Replay(log[..number]))
      ensures r.Refused? ==> r.error == UnknownRevision
    {
      if number !in rows { return Refused(UnknownRevision); }
      r := Ok(rows[number]);
    }

    /** The object a row names. */
    method ReadObject(number: int, manifest: Snapshot) returns (r: Result<Snapshot, Refusal>)
      ensures r.Ok? ==> r.value == manifest && manifest.revision == number
      ensures r.Refused? ==> (r.error == MissingObject && manifest !in objects)
                             || (r.error == IdentityDiffers && manifest.revision != number)
    {
      if manifest !in objects { return Refused(MissingObject); }
      if manifest.revision != number { return Refused(IdentityDiffers); }
      r := Ok(manifest);
    }

    /** The snapshot of a revision, read outside any transaction. */
    method ReadSnapshot(number: int) returns (r: Result<Snapshot, Refusal>)
      requires Valid()
      modifies this
      ensures Valid() && Grows()
      ensures r.Ok? ==> native && 0 <= number <= head && r.value == Snapshot(number, Replay(log[..number]))
      ensures r.Refused? ==> r.error in {LegacyWorkspace, UnknownRevision}
      ensures old(native) && 0 <= number <= old(head) ==> r.Ok?
    {
      if !native { return Refused(LegacyWorkspace); }
      Interfere(false);
      var row := ReadRow(number);
      if row.Refused? { return row; }
      label row:
      Interfere(false);
      assert log[..number] == old@row(log)[..number];
      r := ReadObject(number, row.value);
    }

    /**
     * Commits one document. The snapshot is read and the new object written outside the transaction,
     * with other commits in between; the transaction only compares and advances the head.
     */
    method Commit(expected: int, name: string, document: nat) returns (r: Result<int, Refusal>)
      requires Valid()
      modifies this
      ensures Valid() && Grows()
      ensures r.Ok? ==> 0 <= expected && r.value == expected + 1 == head == |log| && log[expected] == Edit(name, document)
      ensures r.Ok? ==> |old(log)| <= expected
      ensures r == Refused(StaleRevision) ==> 0 <= expected < head == |log|
      ensures r.Refused? ==> r.error in {MalformedName, LegacyWorkspace, UnknownRevision, StaleRevision}
      ensures old(native) && ValidName(name) && 0 <= expected <= old(head) ==> r.Ok? || r == Refused(StaleRevision)
    {
      if !ValidName(name) { return Refused(MalformedName); }
      var read := ReadSnapshot(expected);
      if read.Refused? { return Refused(read.error); }
      var next := Snapshot(expected + 1, read.value.documents[name := document]);
      ghost var prefix := log[..expected];
      Put(next);
      label stored:
      Interfere(false);
      assert log[..expected] == prefix;
      r := Advance(expected, Edit(name, document), next);
    }

    /** The transaction: compares the head and advances it by the stored snapshot. */
    method Advance(expected: int, e: Edit, next: Snapshot) returns (r: Result<int, Refusal>)
      requires Valid() && native && next in objects && 0 <= expected <= |log|
      requires next == Snapshot(expected + 1, Replay(log[..expected])[e.name := e.document])
      modifies this
      ensures Valid() && Grows() && |old(log)| <= |log|
      ensures r == if old(head) == expected then Ok(expected + 1) else Refused(StaleRevision)
      ensures r.Ok? ==> head == |log| == expected + 1 && log == old(log) + [e]
      ensures r.Refused? ==> head == old(head) && log == old(log)
    {
      if !created { return Refused(NotInitialized); }
      if head != expected { return Refused(StaleRevision); }
      assert log[..expected] == log;
      ChainExtends(head, rows, log, e);
      head, rows, log := expected + 1, rows[expected + 1 := next], log + [e];
      r := Ok(expected + 1);
    }

    /** Carries a commit one stage on, in one instant. */
    method Step(expected: int, e: Edit, at: Stage) returns (next: Stage)
      requires Valid() && Holding(Now(), expected, e, at)
      modifies this
      ensures Valid() && Steps(old(Now()), Now(), expected, e, at, next)
    {
      match at
      case Idle =>
        if !ValidName(e.name) { return Ended(Refused(MalformedName)); }
        next := if native then Known else Ended(Refused(LegacyWorkspace));
      case Known =>
        var row := ReadRow(expected);
        next := if row.Ok? then Rowed(row.value) else Ended(Refused(row.error));
      case Rowed(manifest) =>
        var read := ReadObject(expected, manifest);
        next := match read case Ok(snapshot) => Holds(snapshot) case Refused(error) => Ended(Refused(error));
      case Holds(snapshot) =>
        var changed := Snapshot(expected + 1, snapshot.documents[e.name := e.document]);
        Put(changed);
        next := Stored(changed);
      case Stored(changed) =>
        var r := Advance(expected, e, changed);
        next := Ended(r);
      case Ended(_) =>
        next := at;
    }
  }

  /** Every commit has got as far as it had turns. */
  ghost predicate Served(turns: seq<nat>, stages: seq<Stage>) {
    forall i :: 0 <= i < |stages| ==> stages[i].Ended? || multiset(turns)[i] <= Rank(stages[i])
  }

  lemma ServedNext(schedule: seq<nat>, k: nat, stages: seq<Stage>, next: Stage)
    requires k < |schedule| && schedule[k] < |stages| && Served(schedule[..k], stages)
    requires if stages[schedule[k]].Ended? then next == stages[schedule[k]] else Rank(next) > Rank(stages[schedule[k]])
    ensures Served(schedule[..k + 1], stages[schedule[k] := next])
  {
    assert schedule[..k + 1] == schedule[..k] + [schedule[k]];
  }

  /** One turn: other processes act, then one commit takes one step. */
  method Turn(w: Workspace, expected: int, edits: seq<Edit>, stages: seq<Stage>, i: nat, ghost start: World,
              ghost quiet: bool) returns (next: Stage)
    requires w.Valid() && i < |edits| && Racing(w.Now(), expected, edits, stages) && Extends(start, w.Now())
    requires start.native && quiet ==> |start.log| == expected && Decided(start, w.Now(), edits, stages)
    modifies w
    ensures w.Valid() && Extends(start, w.Now()) && Racing(w.Now(), expected, edits, stages[i := next])
    ensures if stages[i].Ended? then next == stages[i] else Rank(next) > Rank(stages[i])
    ensures start.native && quiet && ValidName(edits[i].name) ==> Decided(start, w.Now(), edits, stages[i := next])
  {
    label before:
    w.Interfere(quiet);
    RacingStays(old(w.Now()), w.Now(), expected, edits, stages);
    label mid:
    next := w.Step(expected, edits[i], stages[i]);
    RacingSteps(old@mid(w.Now()), w.Now(), expected, edits, stages, i, next);
    if start.native && quiet && ValidName(edits[i].name) {
      DecidedSteps(start, old@mid(w.Now()), w.Now(), expected, edits, stages, i, next);
    }
    ExtendsTransitive(start, old(w.Now()), old@mid(w.Now()));
    ExtendsTransitive(start, old@mid(w.Now()), w.Now());
  }

  /**
   * Any number of commits against one revision, interleaved in any order of their stages, with other processes in
   * between: never two succeed, a success is the edit at its revision, and a commit given five turns is over. If no
   * other process commits and the revision was the head, then as soon as one is over exactly one has succeeded, and
   * nothing but its edit was added.
   */
  method Race(w: Workspace, expected: int, edits: seq<Edit>, schedule: seq<nat>, ghost quiet: bool)
    returns (stages: seq<Stage>)
    requires w.Valid() && forall i <- schedule :: i < |edits|
    modifies w
    ensures w.Valid() && w.Grows() && Racing(w.Now(), expected, edits, stages)
    ensures forall i :: 0 <= i < |edits| && multiset(schedule)[i] >= LAST ==> stages[i].Ended?
    ensures quiet && old(w.native && w.head == expected) && (forall e <- edits :: ValidName(e.name)) ==>
      Decided(old(w.Now()), w.Now(), edits, stages)
  {
    stages := seq(|edits|, i => Idle);
    ghost var start := w.Now();
    ghost var alone := quiet && w.native && w.head == expected && forall e <- edits :: ValidName(e.name);
    for k := 0 to |schedule|
      invariant w.Valid() && Extends(start, w.Now()) && Racing(w.Now(), expected, edits, stages)
      invariant Served(schedule[..k], stages)
      invariant alone ==> Decided(start, w.Now(), edits, stages)
    {
      assert schedule[k] in schedule;
      var next := Turn(w, expected, edits, stages, schedule[k], start, alone);
      ServedNext(schedule, k, stages, next);
      stages := stages[schedule[k] := next];
    }
    assert schedule[..|schedule|] == schedule;
  }

  /** Each document of revision n is the last edit of its name among the n accepted ones. */
  lemma {:induction false} SnapshotIsLastWrite(log: seq<Edit>, name: string)
    ensures name in Replay(log) <==> exists k :: 0 <= k < |log| && log[k].name == name
    ensures name in Replay(log) ==>
      exists k :: 0 <= k < |log| && log[k] == Edit(name, Replay(log)[name]) &&
                  forall m :: k < m < |log| ==> log[m].name != name
    decreases |log|
  {
    if log != [] {
      var n := |log| - 1;
      SnapshotIsLastWrite(log[..n], name);
      if log[n].name != name && name in Replay(log) {
        var k :| 0 <= k < n && log[..n][k] == Edit(name, Replay(log[..n])[name]) &&
                 forall m :: k < m < n ==> log[..n][m].name != name;
        assert log[k] == Edit(name, Replay(log)[name]);
        forall m | k < m < |log| ensures log[m].name != name { assert m < n ==> log[..n][m] == log[m]; }
      }
      if k0 :| 0 <= k0 < |log| && log[k0].name == name {
        assert k0 < n ==> log[..n][k0].name == name;
      }
    }
  }
}
