/** The repository object: one method per transaction, over mutable rows (apps/api-rust/src/repo.rs). */
module Repository {
  import opened Common
  import P = Protocol
  import opened Protocol
  import opened ProtocolInvariant

  // ---------------------------------------------------------------- queue scan, on values

  predicate Queues(jobs: map<nat, Job>, i: nat) { i in jobs && jobs[i].status.Queued? }

  /** The rows of `SELECT .. WHERE status = 'native_queued' ORDER BY created_at, id`. */
  ghost predicate IsQueue(jobs: map<nat, Job>, q: seq<nat>) {
    && (forall i :: i in q <==> Queues(jobs, i))
    && InOrder(jobs, q)
  }

  ghost predicate InOrder(jobs: map<nat, Job>, q: seq<nat>) {
    && (forall i <- q :: i in jobs)
    && (forall a, b :: 0 <= a < b < |q| ==> Before(jobs, q[a], q[b]))
  }

  ghost function Swept(jobs: map<nat, Job>, authority: map<nat, AuthorityRow>, at: nat -> int, fin: nat -> int,
                       gone: seq<nat>): map<nat, Job>
  {
    map i | i in jobs :: if i in gone then Expire(jobs[i], Reason(authority, at, i), fin(i)) else jobs[i]
  }

  lemma FirstIsChosen(jobs: map<nat, Job>, authority: map<nat, AuthorityRow>, at: nat -> int, i: nat)
    requires First(jobs, authority, at, i)
    ensures Chosen(jobs, authority, at) == Some(i)
  {
    var c := Chosen(jobs, authority, at).value;
    assert First(jobs, authority, at, c);
  }

  lemma NothingChosen(jobs: map<nat, Job>, authority: map<nat, AuthorityRow>, at: nat -> int, fin: nat -> int,
                      owner: Owner, token: nat, q: seq<nat>)
    requires IsQueue(jobs, q) && forall i <- q :: !Eligible(jobs, authority, at, i)
    ensures Chosen(jobs, authority, at) == None
    ensures Swept(jobs, authority, at, fin, q) == ClaimedJobs(jobs, authority, owner, token, at, fin, None)
  {
    forall i: nat ensures !First(jobs, authority, at, i) {
      assert Queues(jobs, i) ==> i in q;
    }
    forall i | i in jobs ensures i in q <==> jobs[i].status.Queued? { assert i in q <==> Queues(jobs, i); }
  }

  lemma ChosenAt(jobs: map<nat, Job>, authority: map<nat, AuthorityRow>, at: nat -> int, fin: nat -> int,
                 owner: Owner, token: nat, q: seq<nat>, k: nat)
    requires IsQueue(jobs, q) && k < |q| && Eligible(jobs, authority, at, q[k])
    requires forall i <- q[..k] :: !Eligible(jobs, authority, at, i)
    ensures q[k] !in q[..k]
    ensures Chosen(jobs, authority, at) == Some(q[k])
    ensures Swept(jobs, authority, at, fin, q[..k])[q[k] := Start(jobs[q[k]], owner, token)]
         == ClaimedJobs(jobs, authority, owner, token, at, fin, Some(q[k]))
  {
    forall m | 0 <= m < k ensures !Eligible(jobs, authority, at, q[m]) { assert q[..k][m] in q[..k]; }
    forall i: nat | Eligible(jobs, authority, at, i) && i != q[k] ensures Before(jobs, q[k], i) {
      assert Queues(jobs, i);
    }
    FirstIsChosen(jobs, authority, at, q[k]);
    forall i | i in jobs ensures i in q[..k] <==> jobs[i].status.Queued? && Before(jobs, i, q[k]) {
      PrefixIsBefore(jobs, q, k, i);
    }
  }

  lemma SweptRow(jobs: map<nat, Job>, authority: map<nat, AuthorityRow>, at: nat -> int, fin: nat -> int,
                 q: seq<nat>, k: nat)
    requires IsQueue(jobs, q) && k < |q|
    ensures q[k] !in q[..k] && q[k] in jobs && jobs[q[k]].status.Queued?
    ensures forall i :: i in q[..k + 1] <==> i in q[..k] || i == q[k]
    ensures Swept(jobs, authority, at, fin, q[..k])[q[k] := Expire(jobs[q[k]], Reason(authority, at, q[k]), fin(q[k]))]
         == Swept(jobs, authority, at, fin, q[..k + 1])
  {
    assert Queues(jobs, q[k]);
    assert q[..k + 1] == q[..k] + [q[k]];
  }

  lemma PrefixIsBefore(jobs: map<nat, Job>, q: seq<nat>, k: nat, i: nat)
    requires IsQueue(jobs, q) && k < |q| && i in jobs
    ensures i in q[..k] <==> jobs[i].status.Queued? && Before(jobs, i, q[k])
  {
    assert i in q <==> Queues(jobs, i);
    if i in q {
      var m :| 0 <= m < |q| && q[m] == i;
      assert m < k ==> q[..k][m] == i;
    }
  }

  lemma KeysKept(jobs: map<nat, Job>, authority: map<nat, AuthorityRow>, owner: Owner, token: nat,
                 at: nat -> int, fin: nat -> int)
    requires UniqueKeys(jobs)
    ensures UniqueKeys(ClaimedJobs(Requeued(jobs, owner), authority, owner, token, at, fin,
                                   Chosen(Requeued(jobs, owner), authority, at)))
  {
    var after := ClaimedJobs(Requeued(jobs, owner), authority, owner, token, at, fin,
                             Chosen(Requeued(jobs, owner), authority, at));
    forall i | i in after ensures i in jobs && after[i].key == jobs[i].key {
    }
  }

  class Repo {
    var initialized: bool
    var head: int
    var leaseOwner: Option<Owner>
    var leaseUntil: int
    var engine: Engine
    var epoch: nat
    var jobs: map<nat, Job>
    var authority: map<nat, AuthorityRow>
    var publications: map<nat, Publication>
    var legacyActive: nat
    ghost var world: World

    ghost function Rows(): Db
      reads this
    {
      Db(initialized, head, leaseOwner, leaseUntil, engine, epoch, jobs, authority, publications, legacyActive)
    }

    /** The rows are those of the abstract world; no two jobs share a key (a table constraint). */
    ghost predicate Valid()
      reads this
    {
      world.db == Rows() && UniqueKeys(jobs)
    }

    constructor ()
      ensures Valid() && world == Start0
    {
      initialized, head, leaseOwner, leaseUntil := false, 0, None, 0;
      engine, epoch, legacyActive := LegacyEngine, 0, 0;
      jobs, authority, publications := map[], map[], map[];
      world := Start0;
    }

    method Initialize()
      requires Valid()
      modifies this
      ensures Valid() && world == Step(old(world), Event.Initialize)
    {
      world := Step(world, Event.Initialize);
      if !initialized {
        initialized, head, leaseOwner, leaseUntil := true, 0, None, 0;
      }
    }

    method Admit(sub: Submission, t: int, id: nat) returns (r: Result<Admission, Code>)
      requires Valid() && Allowed(world, DoAdmit(sub, t, id))
      requires id !in jobs
      modifies this
      ensures Valid() && world == Step(old(world), DoAdmit(sub, t, id))
      ensures r == P.Admit(old(Rows()), sub, t, id).result
    {
      world := AdmitStep(world, sub, t, id);
      if !(1 <= sub.deadlineSeconds <= 3600) { return Refused(MalformedInput); }
      if sub.key.Some? && !ValidKey(sub.key.value) { return Refused(MalformedInput); }
      if !initialized { return Refused(NotInitialized); }
      if sub.key.Some? {
        var old_ids: set<nat> := set i | i in jobs && jobs[i].key == sub.key;
        if old_ids != {} {
          var i :| i in old_ids;
          assert HoldsKey(jobs, sub.key.value, i);
          assert forall j :: HoldsKey(jobs, sub.key.value, j) ==> j == i;
          var job := jobs[i];
          if job.schema == sub.schema && job.view.raw.sha256 == sub.raw.sha256 && job.revision == sub.expected {
            return Ok(Admission(i, true, job.view.deadline, sub.expected));
          }
          return Refused(IdempotencyConflict);
        }
        assert forall i :: i in jobs && jobs[i].key == sub.key ==> i in old_ids;
      }
      if engine != RustEngine { return Refused(NotRouted); }
      if head != sub.expected { return Refused(StaleRevision); }
      if |ActiveJobs(jobs)| >= MAX_QUEUE { return Refused(QueueFull); }
      var a := Authority(id, sub.schema, sub.raw, sub.expected, t, t + sub.deadlineSeconds, sub.executable);
      var view := View(sub.schema, sub.raw, Digest(a), sub.expected, a.deadline);
      jobs := jobs[id := Job(sub.schema, sub.expected, Queued, view, NoDetail, t, None, None, 0, None, sub.key)];
      authority := authority[id := AuthorityRow(a, Digest(a))];
      r := Ok(Admission(id, false, a.deadline, sub.expected));
    }

    method Cancel(id: nat, t: int) returns (r: Result<bool, Code>)
      requires Valid()
      modifies this
      ensures Valid() && world == Step(old(world), DoCancel(id, t))
      ensures r == P.Cancel(old(Rows()), id, t).result
    {
      world := Step(world, DoCancel(id, t));
      if !initialized { return Refused(NotInitialized); }
      if id !in authority { return Refused(NotFound); }
      if id in jobs && jobs[id].status in {Queued, Running} {
        jobs := jobs[id := jobs[id].(status := Cancelled, token := None, finishedAt := Some(t), detail := CancelledByUser)];
        return Ok(true);
      }
      r := Ok(false);
    }

    method Acquire(owner: Owner, seconds: int, t: int) returns (r: Option<nat>)
      requires Valid() && Allowed(world, DoAcquire(owner, seconds, t))
      modifies this
      ensures Valid() && world == Step(old(world), DoAcquire(owner, seconds, t))
      ensures Ok(r) == P.Acquire(old(Rows()), owner, seconds, t).result
    {
      world := Step(world, DoAcquire(owner, seconds, t));
      if engine != RustEngine { return None; }
      if initialized && (leaseUntil < t || leaseOwner == Some(owner)) {
        leaseOwner, leaseUntil := Some(owner), t + seconds;
        return Some(epoch);
      }
      r := None;
    }

    /** The route, read without the row lock. */
    method Route() returns (route: (Engine, nat))
      ensures route == (Rows().engine, Rows().epoch)
    {
      route := (engine, epoch);
    }

    /** The update of an acquisition whose route was read before. */
    method TakeLease(owner: Owner, seconds: int, t: int) returns (taken: bool)
      requires Valid() && Allowed(world, LateAcquire(owner, seconds, t))
      modifies this
      ensures Valid() && world == Step(old(world), LateAcquire(owner, seconds, t))
      ensures taken == Free(old(Rows()), owner, t)
    {
      world := Step(world, LateAcquire(owner, seconds, t));
      taken := initialized && (leaseUntil < t || leaseOwner == Some(owner));
      if taken { leaseOwner, leaseUntil := Some(owner), t + seconds; }
    }

    method Renew(owner: Owner, expected: nat, seconds: int, t: int) returns (r: bool)
      requires Valid() && Allowed(world, DoRenew(owner, expected, seconds, t))
      modifies this
      ensures Valid() && world == Step(old(world), DoRenew(owner, expected, seconds, t))
      ensures Ok(r) == P.Renew(old(Rows()), owner, expected, seconds, t).result
    {
      world := Step(world, DoRenew(owner, expected, seconds, t));
      if (engine, epoch) != (RustEngine, expected) { return false; }
      r := initialized && leaseOwner == Some(owner) && leaseUntil > t;
      if r { leaseUntil := t + seconds; }
    }

    method Release(owner: Owner)
      requires Valid() && Allowed(world, DoRelease(owner))
      modifies this
      ensures Valid() && world == Step(old(world), DoRelease(owner))
    {
      world := Step(world, DoRelease(owner));
      if initialized && leaseOwner == Some(owner) { leaseUntil := 0; }
    }

    method Cutover(to: Engine, t: int) returns (r: Result<(Engine, nat), Code>)
      requires Valid()
      modifies this
      ensures Valid() && world == Step(old(world), DoCutover(to, t))
      ensures r == P.Cutover(old(Rows()), to, t).result
    {
      world := Step(world, DoCutover(to, t));
      if !initialized { return Refused(NotInitialized); }
      if engine == to && epoch > 0 { return Ok((engine, epoch)); }
      var active, foreign := legacyActive, false;
      if to == LegacyEngine { active, foreign := |ActiveJobs(jobs)|, true; }
      if active > 0 { return Refused(DrainRequired); }
      var live := leaseUntil > t;
      var rust := leaseOwner.Some? && leaseOwner.value.RustWorker?;
      if live && rust == foreign { return Refused(LeaseHeld); }
      engine, epoch := to, epoch + 1;
      r := Ok((to, epoch));
    }

    /** A process starts, or ends, a lease tenure under an identity. No row changes. */
    ghost method NoteTenure(e: Event)
      requires Valid() && Allowed(world, e) && (e.BeginTenure? || e.EndTenure?)
      modifies this`world
      ensures Valid() && world == Step(old(world), e)
    {
      world := Step(world, e);
    }

    /** Inserts a job where it belongs in queue order. */
    method Insert(q: seq<nat>, i: nat) returns (r: seq<nat>)
      requires i in jobs && i !in q && InOrder(jobs, q)
      ensures InOrder(jobs, r) && forall j :: j in r <==> j == i || j in q
    {
      var k := 0;
      while k < |q| && Before(jobs, q[k], i)
        invariant k <= |q| && forall m :: 0 <= m < k ==> Before(jobs, q[m], i)
      {
        k := k + 1;
      }
      r := q[..k] + [i] + q[k..];
      Inserted(q, k, i);
      assert k < |q| ==> q[k] != i && Before(jobs, i, q[k]);
      forall m | k <= m < |q| ensures Before(jobs, i, q[m]) {
        assert m > k ==> Before(jobs, q[k], q[m]);
      }
    }

    method SelectQueued() returns (q: seq<nat>)
      ensures IsQueue(jobs, q)
    {
      q := [];
      var rest: set<nat> := set i | i in jobs && jobs[i].status == Queued;
      while rest != {}
        invariant InOrder(jobs, q)
        invariant forall i :: Queues(jobs, i) <==> i in rest || i in q
        invariant forall i <- q :: i !in rest
        decreases |rest|
      {
        var i :| i in rest;
        rest := rest - {i};
        q := Insert(q, i);
      }
    }

    /** `UPDATE jobs SET status = 'native_queued' .. WHERE status = 'native_running' AND owner <> ..`. */
    method RequeueOthers(owner: Owner)
      modifies this`jobs
      ensures jobs == Requeued(old(jobs), owner)
    {
      jobs := map i | i in jobs ::
        if jobs[i].status == Running && (jobs[i].owner == None || jobs[i].owner != Some(owner))
        then jobs[i].(status := Queued, owner := None, token := None) else jobs[i];
    }

    /** Why a queued job fails when its turn comes, if it does. */
    method WhyNot(attempt: nat, id: nat, at: nat -> int) returns (reason: Option<Detail>)
      ensures reason.None? <==> id in authority && at(id) < authority[id].record.deadline && attempt < MAX_ATTEMPTS
      ensures reason.Some? ==> reason.value == Reason(authority, at, id)
    {
      if id !in authority { return Some(AuthorityMissing); }
      if at(id) >= authority[id].record.deadline { return Some(DeadlineExpired); }
      if attempt >= MAX_ATTEMPTS { return Some(AttemptsExhausted); }
      reason := None;
    }

    /** The body of a claim once its fences passed: requeue, then scan the queue in order. */
    method ScanQueue(owner: Owner, expected: nat, at: nat -> int, fin: nat -> int,
                     token: nat) returns (r: Option<Claim>)
      modifies this`jobs
      ensures
        var rows := Requeued(old(jobs), owner);
        var chosen := Chosen(rows, authority, at);
        && jobs == ClaimedJobs(rows, authority, owner, token, at, fin, chosen)
        && r == (if chosen.None? then None
                 else Some(NewClaim(rows[chosen.value], authority[chosen.value], chosen.value, owner, expected, token)))
    {
      RequeueOthers(owner);
      var queued := SelectQueued();
      r := ScanList(queued, owner, expected, at, fin, token);
    }

    /** Starts one job. */
    method StartJob(id: nat, owner: Owner, expected: nat, token: nat) returns (c: P.Claim)
      requires id in jobs && id in authority
      modifies this`jobs
      ensures jobs == old(jobs)[id := Start(old(jobs[id]), owner, token)]
      ensures c == NewClaim(old(jobs[id]), authority[id], id, owner, expected, token)
    {
      var attempt := jobs[id].attempt + 1;
      jobs := jobs[id := jobs[id].(owner := Some(owner), token := Some(token), attempt := attempt, status := Running)];
      c := P.Claim.Claim(id, owner, token, attempt, expected, jobs[id].view, authority[id].record, authority[id].digest);
    }

    /** Goes through the queue up to the first job that may start. */
    method ScanList(queued: seq<nat>, owner: Owner, expected: nat, at: nat -> int, fin: nat -> int, token: nat)
      returns (r: Option<Claim>)
      requires IsQueue(jobs, queued)
      modifies this`jobs
      ensures
        var rows := old(jobs);
        var chosen := Chosen(rows, authority, at);
        && jobs == ClaimedJobs(rows, authority, owner, token, at, fin, chosen)
        && r == (if chosen.None? then None
                 else Some(NewClaim(rows[chosen.value], authority[chosen.value], chosen.value, owner, expected, token)))
    {
      ghost var rows := jobs;
      var k := 0;
      while k < |queued|
        invariant k <= |queued| && IsQueue(rows, queued)
        invariant jobs == Swept(rows, authority, at, fin, queued[..k])
        invariant forall i <- queued[..k] :: !Eligible(rows, authority, at, i)
      {
        var id := queued[k];
        SweptRow(rows, authority, at, fin, queued, k);
        var reason := WhyNot(jobs[id].attempt, id, at);
        if reason == None {
          ChosenAt(rows, authority, at, fin, owner, token, queued, k);
          var claim := StartJob(id, owner, expected, token);
          return Some(claim);
        }
        jobs := jobs[id := jobs[id].(status := Error, detail := reason.value, token := None, finishedAt := Some(fin(id)))];
        k := k + 1;
      }
      assert queued[..k] == queued;
      NothingChosen(rows, authority, at, fin, owner, token, queued);
      r := None;
    }

    method Claim(owner: Owner, expected: nat, t: int, at: nat -> int, fin: nat -> int, token: nat)
      returns (r: Result<Option<P.Claim>, Code>)
      requires Valid() && Allowed(world, DoClaim(owner, expected, t, at, fin, token))
      modifies this
      ensures Valid() && world == Step(old(world), DoClaim(owner, expected, t, at, fin, token))
      ensures r == TakeClaim(old(Rows()), owner, expected, t, at, fin, token).result
    {
      world := ClaimStep(world, owner, expected, t, at, fin, token);
      var refusal := LeaseValid(owner, expected, t);
      if refusal.Some? { return Refused(refusal.value); }
      KeysKept(jobs, authority, owner, token, at, fin);
      var claim := ScanQueue(owner, expected, at, fin, token);
      r := Ok(claim);
    }

    method LeaseValid(owner: Owner, expected: nat, t: int) returns (refusal: Option<Code>)
      ensures refusal == Fence(Rows(), owner, expected, t)
    {
      if !initialized { return Some(NotInitialized); }
      if !(leaseOwner == Some(owner) && leaseUntil > t) { return Some(LeaseLost); }
      if (engine, epoch) != (RustEngine, expected) { return Some(RouteChanged); }
      return None;
    }

    /** Whether this attempt may still run. */
    method IsCurrent(c: P.Claim) returns (r: bool)
      ensures r == Current(Rows(), c)
    {
      r := c.job in jobs && jobs[c.job].token == Some(c.token) && jobs[c.job].status == Running;
    }

    method Fail(c: P.Claim, text: string, t0: int, t1: int) returns (r: Result<(), Code>)
      requires Valid() && Allowed(world, DoFail(c, text, t0, t1))
      modifies this
      ensures Valid() && world == Step(old(world), DoFail(c, text, t0, t1))
      ensures r == P.Fail(old(Rows()), c, text, t0, t1).result
    {
      var refusal := LeaseValid(c.owner, c.epoch, t0);
      var current := IsCurrent(c);
      world := Step(world, DoFail(c, text, t0, t1));
      if refusal.Some? { return Refused(refusal.value); }
      if !current { return Refused(Superseded); }
      jobs := jobs[c.job := jobs[c.job].(status := Error, detail := Reported(text), token := None, finishedAt := Some(t1))];
      r := Ok(());
    }

    method Publish(c: P.Claim, manifest: nat, t0: int, t1: int) returns (r: Result<(), Code>)
      requires Valid() && Allowed(world, DoPublish(c, manifest, t0, t1))
      modifies this
      ensures Valid() && world == Step(old(world), DoPublish(c, manifest, t0, t1))
      ensures r == P.Publish(old(Rows()), c, manifest, t0, t1).result
    {
      var refusal := LeaseValid(c.owner, c.epoch, t0);
      var current := IsCurrent(c);
      world := Step(world, DoPublish(c, manifest, t0, t1));
      if refusal.Some? { return Refused(refusal.value); }
      if c.job !in authority { return Refused(AuthorityChanged); }
      var row := authority[c.job];
      if row.record != c.authority || row.digest != c.digest || Digest(row.record) != row.digest {
        return Refused(AuthorityChanged);
      }
      if !current { return Refused(Superseded); }
      if t1 >= row.record.deadline { return Refused(DeadlinePassed); }
      if c.job in publications { return Refused(StorageError); }
      publications := publications[c.job := Publication(manifest, c.attempt, t1)];
      jobs := jobs[c.job := jobs[c.job].(status := Done, finishedAt := Some(t1))];
      r := Ok(());
    }
  }
}
