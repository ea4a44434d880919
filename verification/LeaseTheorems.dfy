/** Queue order, ownership of the workspace, and recovery of abandoned attempts. */
module LeaseTheorems {
  import opened Common
  import opened Protocol
  import opened ProtocolInvariant
  import opened ProtocolTheorems

  // ---------------------------------------------------------------- queue order

  lemma {:induction false} LeastOf(jobs: map<nat, Job>, ids: set<nat>) returns (least: nat)
    requires ids != {} && ids <= jobs.Keys
    ensures least in ids && forall k :: k in ids && k != least ==> Before(jobs, least, k)
    decreases ids
  {
    var i :| i in ids;
    if ids == {i} {
      least := i;
    } else {
      var j := LeastOf(jobs, ids - {i});
      least := if Before(jobs, i, j) then i else j;
      assert forall k :: k in ids ==> k == i || k in ids - {i};
    }
  }

  /** The claim runs a job exactly when some job may run, and then the least of them in queue order. */
  lemma ChoosesLeast(jobs: map<nat, Job>, authority: map<nat, AuthorityRow>, at: nat -> int)
    ensures Chosen(jobs, authority, at).Some? <==> exists i :: Eligible(jobs, authority, at, i)
    ensures forall i: nat :: Chosen(jobs, authority, at) == Some(i) <==> First(jobs, authority, at, i)
  {
    if i0 :| Eligible(jobs, authority, at, i0) {
      var ids := set i | i in jobs && Eligible(jobs, authority, at, i);
      assert i0 in ids;
      var least := LeastOf(jobs, ids);
      assert First(jobs, authority, at, least);
    }
  }

  /** After a claim that passes its fences every running job belongs to the claimant. */
  lemma ClaimOwnsRunning(w: World, owner: Owner, epoch: nat, t: int, at: nat -> int, fin: nat -> int, token: nat,
                         id: nat)
    requires Fence(w.db, owner, epoch, t).None?
    ensures var jobs := TakeClaim(w.db, owner, epoch, t, at, fin, token).db.jobs;
      id in jobs && jobs[id].status.Running? ==> jobs[id].owner == Some(owner)
  {
    if id in w.db.jobs { ClaimedRow(w.db.jobs, w.db.authority, owner, token, at, fin, id); }
  }

  // ---------------------------------------------------------------- abandoned attempts

  ghost predicate ClaimsWork(w: World, e: Event) {
    e.DoClaim? && Fence(w.db, e.owner, e.epoch, e.t).None?
  }

  /** Whether some claim in the run passes its fences. */
  ghost predicate SomeoneClaims(w: World, run: seq<Event>)
    decreases |run|
  {
    run != [] && (ClaimsWork(w, run[0]) || SomeoneClaims(Step(w, run[0]), run[1..]))
  }

  /**
   * A claim under any identity but c's own takes c's attempt away: it is requeued, restarted or failed. A claim under
   * c's own leaves it: an attempt whose refusal was not recorded stays running while its tenure goes on.
   */
  lemma ClaimTakesOver(w: World, e: Event, c: Claim)
    requires Inv(w) && Allowed(w, e) && ClaimsWork(w, e) && Issued(w, c)
    ensures Current(Step(w, e).db, c) <==> Current(w.db, c) && e.owner == c.owner
  {
    if Current(w.db, c) {
      CurrentClaim(w, c);
      assert ClaimOk(w, c.token);
      ClaimedRow(w.db.jobs, w.db.authority, e.owner, e.token, e.at, e.fin, c.job);
    } else {
      StepKeepsStale(w, e, c);
    }
  }

  /**
   * An attempt whose tenure has ended is recovered by the next claim anyone makes: from then on its
   * token is stale in every later state, so its job is queued, run again, or finished without it.
   */
  lemma {:induction false} AbandonedIsRecovered(w: World, run: seq<Event>, c: Claim)
    requires Inv(w) && Permitted(w, run) && Issued(w, c) && c.owner in w.retired
    requires SomeoneClaims(w, run)
    ensures !Current(After(w, run).db, c)
    decreases |run|
  {
    var w' := Step(w, run[0]);
    StepKeepsInv(w, run[0]);
    StepKeepsHistory(w, run[0]);
    if ClaimsWork(w, run[0]) {
      ClaimTakesOver(w, run[0], c);
      StaleForever(w', run[1..], c, 0, "", 0, 0);
    } else {
      AbandonedIsRecovered(w', run[1..], c);
    }
  }

  /** The lease of an ended tenure is never extended, so it cannot keep later workers out. */
  lemma {:induction false} RetiredLeaseEnds(w: World, run: seq<Event>, owner: Owner, limit: int)
    requires Inv(w) && Permitted(w, run) && owner in w.retired && limit >= 0
    requires w.db.leaseOwner == Some(owner) ==> w.db.leaseUntil <= limit
    ensures var db := After(w, run).db; db.leaseOwner == Some(owner) ==> db.leaseUntil <= limit
    decreases |run|
  {
    if run != [] {
      StepKeepsInv(w, run[0]);
      StepKeepsHistory(w, run[0]);
      RetiredStep(w, run[0], owner, limit);
      RetiredLeaseEnds(Step(w, run[0]), run[1..], owner, limit);
    }
  }

  lemma RetiredStep(w: World, e: Event, owner: Owner, limit: int)
    requires RetiredOk(w) && Allowed(w, e) && owner in w.retired && limit >= 0
    requires w.db.leaseOwner == Some(owner) ==> w.db.leaseUntil <= limit
    ensures var db := Step(w, e).db; db.leaseOwner == Some(owner) ==> db.leaseUntil <= limit
  {
    match e {
      case DoAdmit(_, _, _) => LeaseUnchanged(w, e);
      case DoCancel(_, _) => LeaseUnchanged(w, e);
      case DoClaim(_, _, _, _, _, _) => LeaseUnchanged(w, e);
      case DoFail(_, _, _, _) => LeaseUnchanged(w, e);
      case DoPublish(_, _, _, _) => LeaseUnchanged(w, e);
      case _ =>
    }
  }

  /** Only lease transactions touch the lease. */
  lemma LeaseUnchanged(w: World, e: Event)
    requires e.DoAdmit? || e.DoCancel? || e.DoCutover? || e.DoClaim? || e.DoFail? || e.DoPublish?
             || e.MoveHead? || e.BeginTenure? || e.EndTenure? || e.LegacyQueue?
    ensures Step(w, e).db.leaseOwner == w.db.leaseOwner && Step(w, e).db.leaseUntil == w.db.leaseUntil
  {
  }

  // ---------------------------------------------------------------- a clock that does not go back

  /** A lease update made without the row lock, on readings that may be older than it is. */
  predicate Late(e: Event) { e.LateAcquire? || e.LateRenew? || e.LateLegacyAcquire? || e.LegacyRenew? }

  /** Every clock reading of the event lies within [lo, hi]; those of a late update may be older. */
  ghost predicate Timely(e: Event, lo: int, hi: int) {
    match e
    case DoAdmit(_, t, _) => lo <= t <= hi
    case DoCancel(_, t) => lo <= t <= hi
    case DoAcquire(_, _, t) => lo <= t <= hi
    case DoRenew(_, _, _, t) => lo <= t <= hi
    case LateAcquire(_, _, t) => t <= hi
    case LateRenew(_, _, t) => t <= hi
    case DoCutover(_, t) => lo <= t <= hi
    case DoClaim(_, _, t, at, fin, _) => lo <= t <= hi && forall i: nat :: lo <= at(i) <= hi && lo <= fin(i) <= hi
    case DoFail(_, _, t, t1) => lo <= t <= t1 <= hi
    case DoPublish(_, _, t, t1) => lo <= t <= t1 <= hi
    case LegacyAcquire(_, _, t) => lo <= t <= hi
    case LateLegacyAcquire(_, _, t) => t <= hi
    case LegacyRenew(_, _, t) => t <= hi
    case _ => true
  }

  /** ticks[k] bounds the readings of step k from above and those of step k + 1 from below. */
  ghost predicate Monotone(run: seq<Event>, ticks: seq<int>, lo: int)
    decreases |run|
  {
    |ticks| == |run| &&
    (run == [] || (lo <= ticks[0] && Timely(run[0], lo, ticks[0]) && Monotone(run[1..], ticks[1..], ticks[0])))
  }

  function Final(ticks: seq<int>, lo: int): int {
    if ticks == [] then lo else ticks[|ticks| - 1]
  }

  /** Neither service holds a live lease while the workspace is routed to the other. */
  predicate RouteOwnsLease(db: Db, now: int) {
    && (db.engine == LegacyEngine && db.leaseOwner.Some? && db.leaseOwner.value.RustWorker? ==> db.leaseUntil <= now)
    && (db.engine == RustEngine && db.leaseOwner.Some? && db.leaseOwner.value.LegacyWorker? ==> db.leaseUntil <= now)
  }

  /** The identity a late update is made under. */
  function Holder(e: Event): Owner
    requires Late(e)
  {
    match e
    case LateAcquire(owner, _, _) => owner
    case LateRenew(owner, _, _) => owner
    case LateLegacyAcquire(name, _, _) => LegacyWorker(name)
    case LegacyRenew(name, _, _) => LegacyWorker(name)
  }

  /** The condition of the update holds on the present rows. */
  predicate Effective(db: Db, e: Event)
    requires Late(e)
  {
    if e.LateAcquire? || e.LateLegacyAcquire? then Free(db, Holder(e), e.t) else Live(db, Holder(e), e.t)
  }

  /** A late update serves the engine the workspace is routed to, or changes nothing, or its lease has ended. */
  predicate Harmless(w: World, e: Event, now: int) {
    Late(e) ==>
      (Holder(e).RustWorker? <==> w.db.engine == RustEngine) || !Effective(w.db, e) || e.t + e.seconds <= now
  }

  lemma LockedStepKeepsRoute(w: World, e: Event, lo: int, hi: int)
    requires Allowed(w, e) && 0 <= lo <= hi && Timely(e, lo, hi) && RouteOwnsLease(w.db, lo) && !Late(e)
    ensures RouteOwnsLease(Step(w, e).db, hi)
  {
    match e {
      case DoAdmit(_, _, _) => LeaseUnchanged(w, e);
      case DoCancel(_, _) => LeaseUnchanged(w, e);
      case DoClaim(_, _, _, _, _, _) => LeaseUnchanged(w, e);
      case DoFail(_, _, _, _) => LeaseUnchanged(w, e);
      case DoPublish(_, _, _, _) => LeaseUnchanged(w, e);
      case _ =>
    }
  }

  lemma LateStepExactly(w: World, e: Event, lo: int, hi: int)
    requires lo <= hi && RouteOwnsLease(w.db, lo) && Late(e)
    ensures RouteOwnsLease(Step(w, e).db, hi) <==> Harmless(w, e, hi)
  {
  }

  /** Neither service holds a live lease out of turn, before and after every step. */
  ghost predicate AlwaysOwned(w: World, run: seq<Event>, ticks: seq<int>, lo: int)
    requires |ticks| == |run|
    decreases |run|
  {
    RouteOwnsLease(w.db, lo) && (run == [] || AlwaysOwned(Step(w, run[0]), run[1..], ticks[1..], ticks[0]))
  }

  ghost predicate AllHarmless(w: World, run: seq<Event>, ticks: seq<int>)
    requires |ticks| == |run|
    decreases |run|
  {
    run == [] || (Harmless(w, run[0], ticks[0]) && AllHarmless(Step(w, run[0]), run[1..], ticks[1..]))
  }

  /** Under a clock that does not go back the services are kept apart all along exactly if every late update is harmless. */
  lemma {:induction false} KeptApartExactly(w: World, run: seq<Event>, ticks: seq<int>, lo: int)
    requires Permitted(w, run) && 0 <= lo && Monotone(run, ticks, lo) && RouteOwnsLease(w.db, lo)
    ensures AlwaysOwned(w, run, ticks, lo) <==> AllHarmless(w, run, ticks)
    ensures AlwaysOwned(w, run, ticks, lo) ==> RouteOwnsLease(After(w, run).db, Final(ticks, lo))
    decreases |run|
  {
    if run != [] {
      var e, w' := run[0], Step(w, run[0]);
      if Late(e) { LateStepExactly(w, e, lo, ticks[0]); } else { LockedStepKeepsRoute(w, e, lo, ticks[0]); }
      if RouteOwnsLease(w'.db, ticks[0]) { KeptApartExactly(w', run[1..], ticks[1..], ticks[0]); }
    }
  }

  /**
   * Routing in every reachable world: a workspace routed to the legacy service has no queued or running native job.
   * Under a clock that does not go back, and if every late update is harmless, moreover no Rust lease is live then,
   * now or later; and while it is routed to Rust no legacy lease is live.
   */
  lemma RoutingIsExclusive(run: seq<Event>, ticks: seq<int>, owner: Owner, t: int)
    requires Permitted(Start0, run)
    ensures var db := After(Start0, run).db;
      && (db.engine == LegacyEngine ==> ActiveJobs(db.jobs) == {})
      && (Monotone(run, ticks, 0) && AllHarmless(Start0, run, ticks) && t >= Final(ticks, 0) && Live(db, owner, t) ==>
            (owner.RustWorker? <==> db.engine == RustEngine))
  {
    ReachableInv(run);
    if Monotone(run, ticks, 0) && AllHarmless(Start0, run, ticks) { KeptApartExactly(Start0, run, ticks, 0); }
    var w := After(Start0, run);
    forall id | id in w.db.jobs ensures w.db.engine == LegacyEngine ==> !w.db.jobs[id].Active() {
      assert JobOk(w, id);
    }
  }

  lemma EpochForward(w: World, e: Event)
    ensures Step(w, e).db.epoch >= w.db.epoch
  {
    match e {
      case DoClaim(_, _, _, _, _, _) => assert Step(w, e).db.epoch == w.db.epoch;
      case _ =>
    }
  }

  /** Whoever holds a lease under an epoch that has passed can neither claim, fail nor publish, in any later state. */
  lemma {:induction false} PastEpochIsIdle(w: World, run: seq<Event>, owner: Owner, epoch: nat, t: int)
    requires Permitted(w, run) && epoch < w.db.epoch
    ensures Fence(After(w, run).db, owner, epoch, t).Some?
    decreases |run|
  {
    if run != [] {
      EpochForward(w, run[0]);
      PastEpochIsIdle(Step(w, run[0]), run[1..], owner, epoch, t);
    }
  }

  // ---------------------------------------------------------------- runs that show what is needed

  lemma {:induction false} OneMoreStep(w: World, run: seq<Event>, e: Event)
    requires Permitted(w, run) && Allowed(After(w, run), e)
    ensures Permitted(w, run + [e]) && After(w, run + [e]) == Step(After(w, run), e)
    decreases |run|
  {
    if run == [] {
      assert run + [e] == [e] && [e][1..] == [];
    } else {
      OneMoreStep(Step(w, run[0]), run[1..], e);
      Uncons(run, [e]);
    }
  }

  lemma {:induction false} OneMoreTick(run: seq<Event>, ticks: seq<int>, lo: int, e: Event, tick: int)
    requires Monotone(run, ticks, lo) && Final(ticks, lo) <= tick && Timely(e, Final(ticks, lo), tick)
    ensures Monotone(run + [e], ticks + [tick], lo) && Final(ticks + [tick], lo) == tick
    decreases |run|
  {
    if run == [] {
      assert run + [e] == [e] && ticks + [tick] == [tick] && [e][1..] == [] && [tick][1..] == [];
    } else {
      OneMoreTick(run[1..], ticks[1..], ticks[0], e, tick);
      Uncons(run, [e]);
      Uncons(ticks, [tick]);
    }
  }

  ghost predicate NoneLate(run: seq<Event>) { forall e <- run :: !Late(e) }

  /** A run from the start, one step longer. */
  lemma Then(run: seq<Event>, e: Event) returns (run': seq<Event>)
    requires Permitted(Start0, run) && Allowed(After(Start0, run), e)
    ensures Permitted(Start0, run') && After(Start0, run') == Step(After(Start0, run), e)
    ensures run' == run + [e] && (NoneLate(run) && !Late(e) ==> NoneLate(run'))
  {
    OneMoreStep(Start0, run, e);
    run' := run + [e];
  }

  /** The same with its ticks. */
  lemma Next(run: seq<Event>, ticks: seq<int>, e: Event, tick: int) returns (run': seq<Event>, ticks': seq<int>)
    requires Permitted(Start0, run) && Allowed(After(Start0, run), e)
    requires Monotone(run, ticks, 0) && Final(ticks, 0) <= tick && Timely(e, Final(ticks, 0), tick)
    ensures Permitted(Start0, run') && After(Start0, run') == Step(After(Start0, run), e)
    ensures Monotone(run', ticks', 0) && Final(ticks', 0) == tick && (NoneLate(run) && !Late(e) ==> NoneLate(run'))
  {
    OneMoreTick(run, ticks, 0, e, tick);
    run' := Then(run, e);
    ticks' := ticks + [tick];
  }

  /** A workspace with one tenure of a Rust worker, routed to Rust at 1. */
  lemma RoutedToRust() returns (run: seq<Event>, ticks: seq<int>)
    ensures Permitted(Start0, run) && Monotone(run, ticks, 0) && Final(ticks, 0) == 1 && NoneLate(run)
    ensures After(Start0, run)
         == World(EmptyDb.(initialized := true, engine := RustEngine, epoch := 1), {0}, map[], map[], {})
  {
    run, ticks := Next([], [], Initialize, 0);
    run, ticks := Next(run, ticks, BeginTenure(0), 0);
    run, ticks := Next(run, ticks, DoCutover(RustEngine, 1), 1);
  }

  /** Without the clock assumption the lease half fails: a cutover at 20 admits a Rust lease live at 5. */
  lemma ClockMustNotGoBack() returns (run: seq<Event>)
    ensures Permitted(Start0, run) && NoneLate(run)
    ensures After(Start0, run).db.engine == LegacyEngine && Live(After(Start0, run).db, RustWorker(0), 5)
  {
    var ticks;
    run, ticks := RoutedToRust();
    run := Then(run, DoAcquire(RustWorker(0), 10, 1));
    assert ActiveJobs(After(Start0, run).db.jobs) == {};
    run := Then(run, DoCutover(LegacyEngine, 20));
  }

  /** It fails if a Rust acquisition is late: its update at 3 takes a lease after the cutover at 2. */
  lemma RouteReadNeedsTheLock() returns (run: seq<Event>, ticks: seq<int>)
    ensures Permitted(Start0, run) && Monotone(run, ticks, 0) && Final(ticks, 0) == 3
    ensures After(Start0, run).db.engine == LegacyEngine && Live(After(Start0, run).db, RustWorker(0), 5)
  {
    run, ticks := RoutedToRust();
    assert ActiveJobs(After(Start0, run).db.jobs) == {};
    run, ticks := Next(run, ticks, DoCutover(LegacyEngine, 2), 2);
    run, ticks := Next(run, ticks, LateAcquire(RustWorker(0), 10, 3), 3);
  }

  /** It fails likewise if a legacy acquisition is late, whose route was read before the cutover at 1. */
  lemma LegacyRouteReadNeedsTheLock() returns (run: seq<Event>, ticks: seq<int>)
    ensures Permitted(Start0, run) && Monotone(run, ticks, 0) && Final(ticks, 0) == 3
    ensures After(Start0, run).db.engine == RustEngine && Live(After(Start0, run).db, LegacyWorker(7), 5)
  {
    run, ticks := RoutedToRust();
    run, ticks := Next(run, ticks, LateLegacyAcquire(7, 10, 3), 3);
  }

  /** A legacy lease until 3. */
  lemma LegacyHeld() returns (run: seq<Event>, ticks: seq<int>)
    ensures Permitted(Start0, run) && Monotone(run, ticks, 0) && Final(ticks, 0) == 1
    ensures After(Start0, run)
         == Start0.(db := EmptyDb.(initialized := true, leaseOwner := Some(LegacyWorker(7)), leaseUntil := 3))
  {
    run, ticks := Next([], [], Initialize, 0);
    run, ticks := Next(run, ticks, LegacyAcquire(7, 2, 1), 1);
  }

  /** And if a renewal decides on an old clock reading: a legacy lease that had ended at the cutover is live again. */
  lemma RenewalNeedsTheLock() returns (run: seq<Event>, ticks: seq<int>)
    ensures Permitted(Start0, run) && Monotone(run, ticks, 0) && Final(ticks, 0) == 5
    ensures After(Start0, run).db.engine == RustEngine && Live(After(Start0, run).db, LegacyWorker(7), 6)
  {
    run, ticks := LegacyHeld();
    run, ticks := Next(run, ticks, DoCutover(RustEngine, 4), 4);
    run, ticks := Next(run, ticks, LegacyRenew(7, 10, 2), 5);
  }

  // ---------------------------------------------------------------- lost leases

  /** The step gives the lease back: an acquisition that succeeds, or a late renewal on a reading that found it live. */
  predicate Regains(w: World, e: Event, owner: Owner) {
    match e
    case DoAcquire(o, _, t) => o == owner && w.db.engine == RustEngine && Free(w.db, owner, t)
    case LateAcquire(o, _, t) => o == owner && Free(w.db, owner, t)
    case LateRenew(o, _, t) => o == owner && Live(w.db, owner, t)
    case _ => false
  }

  ghost predicate NeverRegained(w: World, run: seq<Event>, owner: Owner)
    decreases |run|
  {
    run == [] || (!Regains(w, run[0], owner) && NeverRegained(Step(w, run[0]), run[1..], owner))
  }

  /** A lease once found lost stays lost until its identity regains it. */
  lemma {:induction false} LostLeaseStaysLost(w: World, run: seq<Event>, ticks: seq<int>, lo: int, owner: Owner)
    requires Permitted(w, run) && 0 <= lo && Monotone(run, ticks, lo)
    requires owner.RustWorker? && !Live(w.db, owner, lo) && w.db.initialized && NeverRegained(w, run, owner)
    ensures After(w, run).db.initialized && !Live(After(w, run).db, owner, Final(ticks, lo))
    decreases |run|
  {
    if run != [] {
      LostLeaseExactly(w, run[0], lo, ticks[0], owner);
      LostLeaseStaysLost(Step(w, run[0]), run[1..], ticks[1..], ticks[0], owner);
    }
  }

  lemma LostLeaseExactly(w: World, e: Event, lo: int, hi: int, owner: Owner)
    requires Allowed(w, e) && 0 <= lo <= hi && Timely(e, lo, hi)
    requires owner.RustWorker? && w.db.initialized && !Live(w.db, owner, lo)
    ensures Step(w, e).db.initialized
    ensures Live(Step(w, e).db, owner, hi) <==> Regains(w, e, owner) && e.t + e.seconds > hi
  {
    StepKeepsInitialized(w, e);
    match e {
      case DoAdmit(_, _, _) => LeaseUnchanged(w, e);
      case DoCancel(_, _) => LeaseUnchanged(w, e);
      case DoClaim(_, _, _, _, _, _) => LeaseUnchanged(w, e);
      case DoFail(_, _, _, _) => LeaseUnchanged(w, e);
      case DoPublish(_, _, _, _) => LeaseUnchanged(w, e);
      case _ =>
    }
  }

  /** A late renewal can bring a lost lease back: it ended at 3, and the heartbeat had read the clock at 2. */
  lemma LateRenewalRevives() returns (run: seq<Event>, ticks: seq<int>, e: Event)
    ensures Permitted(Start0, run) && Monotone(run, ticks, 0) && Final(ticks, 0) == 4
    ensures !Live(After(Start0, run).db, RustWorker(0), 4)
    ensures e.LateRenew? && Timely(e, 4, 5) && Allowed(After(Start0, run), e)
    ensures Live(Step(After(Start0, run), e).db, RustWorker(0), 5)
  {
    run, ticks := RoutedToRust();
    run, ticks := Next(run, ticks, DoAcquire(RustWorker(0), 2, 1), 1);
    run, ticks := Next(run, ticks, MoveHead, 4);
    e := LateRenew(RustWorker(0), 10, 2);
  }

  /**
   * Once a final transaction found the lease lost, and as long as the clock does not go back and the identity does
   * not regain the lease, every claim under it is refused and changes nothing: the tenure is over.
   */
  lemma LostTenureClaimsNothing(w: World, c: Claim, manifest: nat, t0: int, t1: int, run: seq<Event>, ticks: seq<int>,
                                epoch: nat, t: int, at: nat -> int, fin: nat -> int, token: nat)
    requires w.db.initialized && c.owner.RustWorker? && 0 <= t0
    requires Publish(w.db, c, manifest, t0, t1).result == Refused(LeaseLost)
    requires Permitted(w, run) && Monotone(run, ticks, t0) && NeverRegained(w, run, c.owner) && t >= Final(ticks, t0)
    ensures var db := After(w, run).db;
      TakeClaim(db, c.owner, epoch, t, at, fin, token).result == Refused(LeaseLost)
      && TakeClaim(db, c.owner, epoch, t, at, fin, token).db == db
  {
    LostLeaseStaysLost(w, run, ticks, t0, c.owner);
  }
}
