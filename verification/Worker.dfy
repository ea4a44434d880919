/** The leased worker process against the protocol (apps/api-rust/src/worker.rs). */
module WorkerProcess {
  import opened Common
  import P = Protocol
  import opened Protocol
  import opened ProtocolInvariant
  import opened ProtocolTheorems
  import opened Repository

  /** Outcomes that discard an attempt's output without recording anything. */
  predicate Discards(code: Code) {
    code in {LeaseLost, RouteChanged, Superseded, CancelledInRun}
  }

  /** One tick of the watchdog over a producer that still runs; `polled` is the token poll, if due. */
  function Watchdog(t: int, deadline: int, lost: bool, overflow: bool, polled: Option<Result<bool, Code>>): Option<Code> {
    if t >= deadline then Some(DeadlinePassed)
    else if lost then Some(LeaseLost)
    else if overflow then Some(StreamBound)
    else match polled
      case None => None
      case Some(Ok(current)) => if current then None else Some(CancelledInRun)
      case Some(Refused(code)) => Some(code)
  }

  // ---------------------------------------------------------------- what other processes may do

  /**
   * A step of any other process, or of this worker's heartbeat while it beats. Nobody else acts
   * under this worker's identity or draws from its supply of fresh identities.
   */
  ghost predicate Others(e: Event, owner: Owner, beating: bool, supply: nat -> nat) {
    match e
    case DoAdmit(_, _, id) => forall k :: id != supply(k)
    case DoAcquire(o, _, _) => o != owner
    case DoRenew(o, _, _, _) => o == owner ==> beating
    case LateAcquire(o, _, _) => o != owner
    case LateRenew(o, _, _) => o == owner ==> beating
    case DoRelease(o) => o != owner
    case DoClaim(o, _, _, _, _, token) => o != owner && forall k :: token != supply(k)
    case DoFail(c, _, _, _) => c.owner != owner
    case DoPublish(c, _, _, _) => c.owner != owner
    case BeginTenure(id) => forall k :: id != supply(k)
    case EndTenure(o) => o != owner
    case _ => true
  }

  ghost predicate Interleaving(run: seq<Event>, owner: Owner, beating: bool, supply: nat -> nat) {
    forall e <- run :: Others(e, owner, beating, supply)
  }

  ghost predicate Reaches(w: World, w': World, owner: Owner, beating: bool, supply: nat -> nat) {
    exists run: seq<Event> :: Permitted(w, run) && Interleaving(run, owner, beating, supply) && After(w, run) == w'
  }

  ghost predicate Unused(w: World, supply: nat -> nat, drawn: nat) {
    forall k :: k >= drawn ==> supply(k) !in w.used
  }

  /** What this worker may rely on across any interleaving of the others. */
  ghost predicate Relies(w: World, w': World, owner: Owner, supply: nat -> nat, drawn: nat) {
    && Reachable(w')
    && w.used <= w'.used && w.retired <= w'.retired
    && (owner !in w.retired ==> owner !in w'.retired)
    && (Unused(w, supply, drawn) ==> Unused(w', supply, drawn))
    && (forall c :: Issued(w, c) ==> Issued(w', c) && (!Current(w.db, c) ==> !Current(w'.db, c)))
  }

  lemma OneStepRelies(w: World, e: Event, owner: Owner, beating: bool, supply: nat -> nat, drawn: nat)
    requires Reachable(w) && Allowed(w, e) && Others(e, owner, beating, supply)
    ensures Relies(w, Step(w, e), owner, supply, drawn)
  {
    ReachableSound(w);
    ReachableStep(w, e);
    StepKeepsHistory(w, e);
    forall c | Issued(w, c) && !Current(w.db, c) ensures !Current(Step(w, e).db, c) { StepKeepsStale(w, e, c); }
    OneStepFresh(w, e, owner, beating, supply);
  }

  lemma OneStepFresh(w: World, e: Event, owner: Owner, beating: bool, supply: nat -> nat)
    requires Allowed(w, e) && Others(e, owner, beating, supply)
    ensures forall k :: supply(k) in Step(w, e).used ==> supply(k) in w.used
    ensures owner in Step(w, e).retired ==> owner in w.retired
  {
  }

  lemma {:induction false} RunRelies(w: World, run: seq<Event>, owner: Owner, beating: bool, supply: nat -> nat,
                                     drawn: nat)
    requires Reachable(w) && Permitted(w, run) && Interleaving(run, owner, beating, supply)
    ensures Relies(w, After(w, run), owner, supply, drawn)
    decreases |run|
  {
    if run != [] {
      assert run[0] in run;
      forall e <- run[1..] ensures Others(e, owner, beating, supply) { assert e in run; }
      OneStepRelies(w, run[0], owner, beating, supply, drawn);
      RunRelies(Step(w, run[0]), run[1..], owner, beating, supply, drawn);
    }
  }

  lemma ReachesRelies(w: World, w': World, owner: Owner, beating: bool, supply: nat -> nat, drawn: nat)
    requires Reachable(w) && Reaches(w, w', owner, beating, supply)
    ensures Relies(w, w', owner, supply, drawn)
  {
    var run: seq<Event> :| Permitted(w, run) && Interleaving(run, owner, beating, supply) && After(w, run) == w';
    RunRelies(w, run, owner, beating, supply, drawn);
  }

  datatype Outcome = Published | Discarded(code: Code) | Recorded | Unrecorded

  class Worker {
    const repo: Repo
    const seconds: int
    const supply: nat -> nat
    var drawn: nat
    var owner: Owner
    /** Set by the heartbeat when a renewal fails, and by the main loop when a claim is refused. */
    var lost: bool
    /** The process-wide stop flag. It is never cleared. */
    var stop: bool
    var beating: bool
    /** Scheduling rounds left before the stop flag is seen: every finite run has such a number. */
    var rounds: nat
    ghost var held: set<Owner>
    ghost var taken: set<P.Claim>

    ghost predicate Injective() {
      forall i, j :: supply(i) == supply(j) ==> i == j
    }

    /** The worker may act under its identity. */
    ghost predicate Ready()
      reads this, repo
    {
      && repo.Valid() && Reachable(repo.world) && Injective()
      && Unused(repo.world, supply, drawn)
      && owner.RustWorker? && owner.tenure in repo.world.used && owner !in repo.world.retired
      && (stop || rounds > 0)
      && Accounted()
    }

    /** Every lease this process held was under an ended tenure or the present one; so was every claim it took. */
    ghost predicate Accounted()
      reads this, repo
    {
      && (forall o <- held :: o in repo.world.retired || o == owner)
      && (forall c <- taken :: Issued(repo.world, c) && c.owner in held)
    }

    constructor (repo: Repo, seconds: int, supply: nat -> nat, rounds: nat)
      requires repo.Valid() && Reachable(repo.world)
      requires forall i, j :: supply(i) == supply(j) ==> i == j
      requires Unused(repo.world, supply, 0) && rounds > 0
      modifies repo
      ensures Ready() && this.repo == repo && fresh(this)
      ensures held == {} && taken == {} && !beating && !lost && !stop
    {
      this.repo, this.seconds, this.supply, this.rounds := repo, seconds, supply, rounds;
      drawn, lost, stop, beating := 1, false, false, false;
      held, taken := {}, {};
      owner := RustWorker(supply(0));
      new;
      OneStepFreshens(repo.world, supply(0));
      ghost var w := repo.world;
      repo.NoteTenure(BeginTenure(supply(0)));
      ReachableStep(w, BeginTenure(supply(0)));
    }

    // -------------------------------------------------------------- the environment

    /**
     * Other processes and this worker's heartbeat run for a while. The body does nothing; callers
     * know only what the contract says.
     */
    method Interfere()
      requires Ready()
      modifies this`lost, this`stop, repo
      ensures Ready()
      ensures Reaches(old(repo.world), repo.world, owner, beating, supply)
      ensures Relies(old(repo.world), repo.world, owner, supply, drawn)
      ensures (old(lost) ==> lost) && (old(stop) ==> stop) && (!beating ==> lost == old(lost))
    {
      assert Permitted(repo.world, []) && After(repo.world, []) == repo.world;
      assert Interleaving([], owner, beating, supply);
    }

    /** A clock reading; any value. */
    method Now() returns (t: int) { t := *; }

    /** The readings a claim takes for each job it looks at. */
    method Readings() returns (at: nat -> int, fin: nat -> int) { at, fin := *, *; }

    /** Whether the database refuses a connection or rolls a transaction back. */
    method Faulty() returns (b: bool) { b := *; }

    /** Schema, input object, executable, verification and reread checks of one attempt. */
    method LocalCheck() returns (refusal: Option<string>) { refusal := *; }

    /** Whether the producer has exited, and with success; and whether it overran the stream bound. */
    method Child() returns (exited: Option<bool>, overflow: bool, due: bool) { exited, overflow, due := *, *, *; }

    // -------------------------------------------------------------- tenures

    method Tick()
      requires Ready()
      modifies this`rounds, this`stop
      ensures Ready() && (old(stop) ==> stop)
      ensures !old(stop) ==> rounds < old(rounds)
      ensures rounds <= old(rounds)
    {
      if rounds <= 1 { rounds, stop := 0, true; } else { rounds := rounds - 1; }
    }

    /** Ends the present tenure. The heartbeat must have stopped. */
    ghost method End()
      requires Ready() && !beating
      modifies repo`world
      ensures repo.Valid() && Reachable(repo.world) && Injective() && Unused(repo.world, supply, drawn)
      ensures owner in repo.world.retired && Accounted()
    {
      ghost var w := repo.world;
      repo.NoteTenure(EndTenure(owner));
      ReachableStep(w, EndTenure(owner));
    }

    /** Draws a new identity after the old one's tenure ended. */
    method Rotate()
      requires repo.Valid() && Reachable(repo.world) && Injective() && Unused(repo.world, supply, drawn)
      requires owner in repo.world.retired && Accounted() && (stop || rounds > 0)
      modifies this`owner, this`drawn, repo`world
      ensures Ready() && owner !in held
    {
      OneStepFreshens(repo.world, supply(drawn));
      ghost var w := repo.world;
      owner := RustWorker(supply(drawn));
      repo.NoteTenure(BeginTenure(supply(drawn)));
      ReachableStep(w, BeginTenure(supply(drawn)));
      drawn := drawn + 1;
    }

    lemma OneStepFreshens(w: World, id: nat)
      requires Reachable(w) && id !in w.used
      ensures RustWorker(id) !in w.retired
    {
      ReachableSound(w);
    }

    // -------------------------------------------------------------- one attempt

    /** c is the attempt this worker executes under its present identity. */
    ghost predicate Executing(c: P.Claim)
      reads this, repo
    {
      Ready() && beating && Issued(repo.world, c) && c.owner == owner
    }

    /** The watchdog loop over the producer. */
    method Native(c: P.Claim) returns (stopped: Option<Code>)
      requires Executing(c)
      modifies this`lost, this`stop, repo
      ensures Executing(c)
      ensures Relies(old(repo.world), repo.world, owner, supply, drawn)
      ensures (old(lost) ==> lost) && (old(stop) ==> stop)
      ensures stopped == Some(LeaseLost) ==> lost
      ensures stopped == Some(CancelledInRun) ==> !Current(repo.world.db, c)
      ensures stopped.Some? ==> stopped.value !in {RouteChanged, Superseded, AuthorityMismatch}
    {
      ghost var w0 := repo.world;
      var ticks := rounds;
      while ticks > 0
        invariant Executing(c)
        invariant Relies(w0, repo.world, owner, supply, drawn)
        invariant (old(lost) ==> lost) && (old(stop) ==> stop)
      {
        ticks := ticks - 1;
        ghost var w1 := repo.world;
        var exited;
        exited, stopped := WatchTick(c);
        RelyTransitive(w0, w1, repo.world);
        if exited || stopped.Some? { return; }
      }
      stopped := None;
    }

    /** One tick: others run, then the producer's exit and the watchdog's reasons are looked at in order. */
    method WatchTick(c: P.Claim) returns (exited: bool, stopped: Option<Code>)
      requires Executing(c)
      modifies this`lost, this`stop, repo
      ensures Executing(c)
      ensures Relies(old(repo.world), repo.world, owner, supply, drawn)
      ensures (old(lost) ==> lost) && (old(stop) ==> stop)
      ensures stopped == Some(LeaseLost) ==> lost
      ensures stopped == Some(CancelledInRun) ==> !Current(repo.world.db, c)
      ensures stopped.Some? ==> stopped.value !in {RouteChanged, Superseded, AuthorityMismatch}
    {
      Interfere();
      var status, overflow, due := Child();
      if status.Some? {
        return true, if status.value then None else Some(WorkerRefusal("NATIVE_FAILED"));
      }
      var polled := None;
      if due { polled := Poll(c); }
      var t := Now();
      return false, Watchdog(t, c.authority.deadline, lost, overflow, polled);
    }

    /** Asks whether the token is still current; the database may not answer. */
    method Poll(c: P.Claim) returns (polled: Option<Result<bool, Code>>)
      requires repo.Valid()
      ensures polled in {Some(Ok(Current(repo.world.db, c))), Some(Refused(StorageError))}
    {
      var down := Faulty();
      if down { return Some(Refused(StorageError)); }
      var current := repo.IsCurrent(c);
      polled := Some(Ok(current));
    }

    /** Identity, schema, input, deadline and executable, before the producer starts. */
    method Precheck(c: P.Claim) returns (refusal: Option<Code>)
      requires Reachable(repo.world) && Issued(repo.world, c)
      ensures refusal.Some? ==> !Discards(refusal.value) && refusal.value != AuthorityMismatch
    {
      var a := c.authority;
      ViewIsAuthority(c);
      if c.view.digest != c.digest || c.view.raw != a.raw || c.view.schema != a.schema || Digest(a) != c.digest {
        return Some(AuthorityMismatch);
      }
      var bad := LocalCheck();
      if bad.Some? { return Some(WorkerRefusal(bad.value)); }
      var t := Now();
      refusal := if t >= a.deadline then Some(DeadlinePassed) else None;
    }

    /** From the claim to the final transaction. */
    method Attempt(c: P.Claim) returns (r: Result<(), Code>)
      requires Executing(c)
      modifies this`lost, this`stop, repo
      ensures Executing(c)
      ensures Relies(old(repo.world), repo.world, owner, supply, drawn)
      ensures (old(lost) ==> lost) && (old(stop) ==> stop)
      ensures r.Ok? ==> PublishedAs(c)
      ensures r.Refused? && Discards(r.error) && r.error != LeaseLost ==> !Current(repo.world.db, c)
      ensures r != Refused(AuthorityMismatch)
    {
      ghost var w0 := repo.world;
      var early := Precheck(c);
      if early.Some? { return Refused(early.value); }
      var stopped := Native(c);
      if stopped.Some? { return Refused(stopped.value); }
      var bad := LocalCheck();
      if bad.Some? { return Refused(WorkerRefusal(bad.value)); }
      ghost var w1 := repo.world;
      r := Commit(c);
      RelyTransitive(w0, w1, repo.world);
    }

    ghost predicate PublishedAs(c: P.Claim)
      reads repo
    {
      c.job in repo.world.db.publications && repo.world.db.publications[c.job].attempt == c.attempt
    }

    /**
     * The final publication transaction, after others have run. The connection may fail before the transaction, or
     * after it: then it may have committed without the worker knowing.
     */
    method Commit(c: P.Claim) returns (r: Result<(), Code>)
      requires Executing(c)
      modifies this`lost, this`stop, repo
      ensures Executing(c)
      ensures Relies(old(repo.world), repo.world, owner, supply, drawn)
      ensures (old(lost) ==> lost) && (old(stop) ==> stop)
      ensures r.Ok? ==> PublishedAs(c)
      ensures r.Refused? && Discards(r.error) && r.error != LeaseLost ==> !Current(repo.world.db, c)
      ensures r != Refused(AuthorityMismatch)
    {
      ghost var w0 := repo.world;
      Interfere();
      var t0 := Now();
      var t1 := Now();
      ghost var w1 := repo.world;
      var down := Faulty();
      if down { return Refused(StorageError); }
      CommitOutcome(c, t0, t1);
      StepIsMine(w1, DoPublish(c, 0, t0, t1));
      r := repo.Publish(c, 0, t0, t1);
      RelyTransitive(w0, w1, repo.world);
      var unanswered := Faulty();
      if unanswered { r := Refused(StorageError); }
    }

    /** What the final transaction says, and what it leaves, for a claim of this worker. */
    lemma CommitOutcome(c: P.Claim, t0: int, t1: int)
      requires Reachable(repo.world) && Issued(repo.world, c)
      ensures var tx := P.Publish(repo.world.db, c, 0, t0, t1);
        && (tx.result.Ok? ==> c.job in tx.db.publications && tx.db.publications[c.job].attempt == c.attempt)
        && (tx.result.Refused? ==>
              tx.db == repo.world.db
              && tx.result.error in {NotInitialized, LeaseLost, RouteChanged, Superseded, DeadlinePassed})
        && (tx.result.Refused? && tx.result.error in {RouteChanged, Superseded} ==> !Current(repo.world.db, c))
    {
      ReachableSound(repo.world);
      PublishesExactly(repo.world, c, 0, t0, t1);
    }

    lemma PublishedIsStale(c: P.Claim)
      requires Reachable(repo.world) && PublishedAs(c)
      ensures !Current(repo.world.db, c)
    {
      ReachableSound(repo.world);
      assert c.job in repo.world.db.jobs ==> JobOk(repo.world, c.job);
    }

    /** An issued claim carries its record, so the worker's first check never fires. */
    lemma ViewIsAuthority(c: P.Claim)
      requires Reachable(repo.world) && Issued(repo.world, c)
      ensures var a := c.authority;
        c.view.digest == c.digest == Digest(a) && c.view.raw == a.raw && c.view.schema == a.schema
    {
      ReachableSound(repo.world);
      assert ClaimOk(repo.world, c.token);
      assert JobOk(repo.world, c.job);
    }

    lemma RelyTransitive(a: World, b: World, c: World)
      requires Relies(a, b, owner, supply, drawn) && Relies(b, c, owner, supply, drawn)
      ensures Relies(a, c, owner, supply, drawn)
    {
    }

    /** The worker's own finishing steps keep what it relies on as well. */
    lemma StepIsMine(w: World, e: Event)
      requires Reachable(w) && Allowed(w, e) && (e.DoPublish? || e.DoFail?)
      ensures Relies(w, Step(w, e), owner, supply, drawn)
    {
      ReachableSound(w);
      ReachableStep(w, e);
      StepKeepsHistory(w, e);
      forall c | Issued(w, c) && !Current(w.db, c) ensures !Current(Step(w, e).db, c) { StepKeepsStale(w, e, c); }
    }

    /** Records a refusal, after others have run; the database may be unreachable. */
    method RecordRefusal(c: P.Claim) returns (outcome: Outcome)
      requires Executing(c)
      modifies this`lost, this`stop, repo
      ensures Executing(c)
      ensures Relies(old(repo.world), repo.world, owner, supply, drawn)
      ensures (old(lost) ==> lost) && (old(stop) ==> stop)
      ensures outcome == Unrecorded || (outcome == Recorded && !Current(repo.world.db, c))
    {
      ghost var w0 := repo.world;
      Interfere();
      var down := Faulty();
      if down { return Unrecorded; }
      ghost var w1 := repo.world;
      var t0 := Now();
      var t1 := Now();
      StepIsMine(w1, DoFail(c, "", t0, t1));
      var failed := repo.Fail(c, "", t0, t1);
      RelyTransitive(w0, w1, repo.world);
      var unanswered := Faulty();
      outcome := if failed.Ok? && !unanswered then Recorded else Unrecorded;
    }

    /**
     * Runs one claim to its end. Afterwards its token is stale, unless the lease was lost or the
     * refusal could not be recorded: then the job stays running under this tenure's identity.
     */
    method Execute(c: P.Claim) returns (outcome: Outcome)
      requires Executing(c)
      modifies this`lost, this`stop, repo
      ensures Executing(c)
      ensures Relies(old(repo.world), repo.world, owner, supply, drawn)
      ensures (old(lost) ==> lost) && (old(stop) ==> stop)
      ensures outcome.Published? ==> c.job in repo.world.db.publications
      ensures Current(repo.world.db, c) ==> outcome in {Discarded(LeaseLost), Unrecorded}
    {
      ghost var w0 := repo.world;
      var r := Attempt(c);
      if r.Ok? {
        PublishedIsStale(c);
        return Published;
      }
      if Discards(r.error) { return Discarded(r.error); }
      ghost var w1 := repo.world;
      outcome := RecordRefusal(c);
      RelyTransitive(w0, w1, repo.world);
    }

    // -------------------------------------------------------------- the main loop

    /**
     * One claim transaction. A claim it returns is this worker's to execute; of one whose answer is lost the worker
     * does not know.
     */
    method ClaimNext(epoch: nat) returns (r: Result<Option<P.Claim>, Code>)
      requires Ready() && beating && owner in held
      modifies this`lost, this`stop, this`drawn, this`taken, repo
      ensures Ready() && (old(lost) ==> lost) && (old(stop) ==> stop)
      ensures r.Ok? && r.value.Some? ==> Executing(r.value.value) && taken == old(taken) + {r.value.value}
      ensures r.Refused? || r.value.None? ==> taken == old(taken)
    {
      Interfere();
      var down := Faulty();
      if down { return Refused(StorageError); }
      r := ClaimNow(epoch);
      var unanswered := Faulty();
      if unanswered { return Refused(StorageError); }
      if r.Ok? && r.value.Some? { taken := taken + {r.value.value}; }
    }

    method ClaimNow(epoch: nat) returns (r: Result<Option<P.Claim>, Code>)
      requires Ready() && beating
      modifies this`drawn, repo
      ensures Ready()
      ensures r.Ok? && r.value.Some? ==> Executing(r.value.value)
    {
      var t := Now();
      var at, fin := Readings();
      var token := supply(drawn);
      ClaimIsMine(repo.world, epoch, t, at, fin, token);
      r := repo.Claim(owner, epoch, t, at, fin, token);
      drawn := drawn + 1;
    }

    /** Claims one job and runs it, if the fences hold and the queue is not empty. A refused claim ends the tenure. */
    method ClaimAndExecute(epoch: nat) returns (claimed: Result<Option<P.Claim>, Code>)
      requires Ready() && beating && owner in held
      modifies this`lost, this`stop, this`drawn, this`taken, repo
      ensures Ready() && (old(lost) ==> lost) && (old(stop) ==> stop)
      ensures if claimed.Ok? && claimed.value.Some? then taken == old(taken) + {claimed.value.value} else taken == old(taken)
      ensures claimed.Refused? ==> lost
    {
      claimed := ClaimNext(epoch);
      match claimed {
        case Refused(_) => lost := true;
        case Ok(None) =>
        case Ok(Some(c)) =>
          var outcome := Execute(c);
      }
    }

    lemma ClaimIsMine(w: World, epoch: nat, t: int, at: nat -> int, fin: nat -> int, token: nat)
      requires Reachable(w) && Injective() && Unused(w, supply, drawn) && token == supply(drawn)
      requires owner.RustWorker? && owner !in w.retired
      ensures Allowed(w, DoClaim(owner, epoch, t, at, fin, token))
      ensures var w' := Step(w, DoClaim(owner, epoch, t, at, fin, token));
        && Reachable(w') && Unused(w', supply, drawn + 1) && w'.retired == w.retired && w.used <= w'.used
        && (forall c :: Issued(w, c) ==> Issued(w', c))
        && var r := TakeClaim(w.db, owner, epoch, t, at, fin, token).result;
           (r.Ok? && r.value.Some? ==> Issued(w', r.value.value) && r.value.value.owner == owner)
    {
      ReachableSound(w);
      ReachableStep(w, DoClaim(owner, epoch, t, at, fin, token));
      StepKeepsHistory(w, DoClaim(owner, epoch, t, at, fin, token));
    }

    /** Takes the lease under a fresh identity, works until the tenure ends, and ends it. */
    method Tenure(epoch: nat, exitWhenIdle: bool) returns (drained: bool)
      requires Ready() && !beating && !lost && owner in held
      modifies this`lost, this`stop, this`rounds, this`drawn, this`taken, this`beating, repo
      ensures Ready() && !beating && held == old(held)
      ensures rounds <= old(rounds) && (old(stop) ==> stop)
      ensures !lost ==> stop || drained
    {
      beating, drained := true, false;
      while !lost && !stop
        invariant Ready() && beating && held == old(held)
        invariant rounds <= old(rounds) && (old(stop) ==> stop)
        decreases rounds, !stop
      {
        Tick();
        var claimed := ClaimAndExecute(epoch);
        if claimed == Ok(None) && exitWhenIdle {
          drained := true;
          break;
        }
      }
      // The heartbeat may renew, or lose the lease, until it is joined.
      Interfere();
      beating := false;
    }

    /**
     * The worker's life. When it returns, every identity it ever acquired a lease under has ended, so
     * each attempt it took is stale or will be requeued by the next claim anyone makes.
     */
    method Run(exitWhenIdle: bool)
      requires Ready() && !beating && !lost && held == {} && taken == {}
      modifies this, repo
      ensures repo.Valid() && Reachable(repo.world)
      ensures owner in repo.world.retired && held <= repo.world.retired
      ensures forall c <- taken :: Issued(repo.world, c) && c.owner in repo.world.retired
    {
      var idleRounds, left := 0, false;
      while !stop
        invariant Ready() && !beating && !lost
        invariant stop || owner !in held
        decreases rounds, !stop
      {
        Tick();
        var epoch := TryAcquire();
        if epoch.None? {
          idleRounds := idleRounds + 1;
          if exitWhenIdle && idleRounds > 20 {
            left := true;
            break;
          }
        } else {
          idleRounds := 0;
          var drained := Serve(epoch.value, exitWhenIdle);
          if drained {
            left := true;
            break;
          }
        }
      }
      if !left {
        Interfere();
        ReleaseLease();
      }
      End();
    }

    /** One tenure under a lease just acquired, and what follows it. */
    method Serve(epoch: nat, exitWhenIdle: bool) returns (drained: bool)
      requires Ready() && !beating && !lost
      modifies this, repo
      ensures Ready() && !beating && !lost
      ensures rounds <= old(rounds) && (old(stop) ==> stop)
      ensures stop || drained || owner !in held
    {
      held := held + {owner};
      drained := Tenure(epoch, exitWhenIdle);
      Settle();
    }

    /** After the heartbeat is joined: a lost tenure gives up its identity, otherwise the lease is released. */
    method Settle()
      requires Ready() && !beating
      modifies this`lost, this`stop, this`owner, this`drawn, repo
      ensures Ready() && !lost && (old(lost) ==> owner !in held) && (old(stop) ==> stop)
    {
      Interfere();
      if lost {
        End();
        Rotate();
        lost := false;
      } else {
        ReleaseLease();
      }
    }

    /** Acquires, with others between the reading of the route and the update, as where only the row lock serialises. */
    method TryAcquire() returns (epoch: Option<nat>)
      requires Ready() && !beating
      modifies this`lost, this`stop, repo
      ensures Ready() && lost == old(lost) && (old(stop) ==> stop)
    {
      Interfere();
      var down := Faulty();
      if down { return None; }
      var route := repo.Route();
      if route.0 != RustEngine { return None; }
      Interfere();
      var t := Now();
      AcquireIsMine(repo.world, t);
      var taken := repo.TakeLease(owner, seconds, t);
      var unanswered := Faulty();
      epoch := if taken && !unanswered then Some(route.1) else None;
    }

    lemma AcquireIsMine(w: World, t: int)
      requires Reachable(w) && Unused(w, supply, drawn)
      requires owner.RustWorker? && owner.tenure in w.used && owner !in w.retired
      ensures Allowed(w, LateAcquire(owner, seconds, t))
      ensures var w' := Step(w, LateAcquire(owner, seconds, t));
        Reachable(w') && w'.used == w.used && w'.retired == w.retired && w'.claims == w.claims
    {
      ReachableStep(w, LateAcquire(owner, seconds, t));
    }

    /** Gives the lease up; an error is ignored, and the lease then runs out. */
    method ReleaseLease()
      requires Ready()
      modifies repo
      ensures Ready()
    {
      var down := Faulty();
      if !down {
        ghost var w := repo.world;
        ReachableStep(w, DoRelease(owner));
        repo.Release(owner);
      }
    }
  }
}
