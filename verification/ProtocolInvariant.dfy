/** The inductive invariant of the protocol: every allowed step keeps it, under any clock. */
module ProtocolInvariant {
  import opened Common
  import opened Protocol

  /** The attempt tokens issued for a job. */
  ghost function ClaimsOf(claims: map<nat, Claim>, id: nat): set<nat> {
    set t | t in claims && claims[t].job == id
  }

  /** The job's own columns agree with its immutable admission record. */
  predicate ViewAgrees(id: nat, job: Job, row: AuthorityRow) {
    var a := row.record;
    && row.digest == Digest(a) && a.job == id
    && job.schema == a.schema && job.revision == a.revision && job.createdAt == a.admittedAt
    && job.view == View(a.schema, a.raw, row.digest, a.revision, a.deadline)
    && a.admittedAt < a.deadline
  }

  predicate Holding(job: Job) { job.status.Running? || job.status.Done? }

  /** The token on a row was issued for it, by the last claim of that job. */
  ghost predicate TokenOk(id: nat, job: Job, claims: map<nat, Claim>, epoch: nat) {
    && job.token.Some? && job.token.value in claims
    && var c := claims[job.token.value];
    && c.job == id && c.attempt == job.attempt && job.owner == Some(c.owner)
    && (job.status.Running? ==> c.epoch == epoch)
  }

  ghost predicate HistoryOk(id: nat, job: Job, claims: map<nat, Claim>, epoch: nat) {
    && job.attempt == |ClaimsOf(claims, id)| <= MAX_ATTEMPTS
    && (if Holding(job) then TokenOk(id, job, claims, epoch) else job.token.None?)
  }

  /** A publication exists exactly on a done job, for its last attempt and before its deadline. */
  predicate OutcomeOk(job: Job, row: AuthorityRow, publication: Option<Publication>) {
    && (job.Active() <==> job.finishedAt.None?)
    && (job.status.Done? <==> publication.Some?)
    && (publication.Some? ==>
          && publication.value.attempt == job.attempt
          && publication.value.createdAt < row.record.deadline)
  }

  function Get<K, V>(m: map<K, V>, k: K): Option<V> {
    if k in m then Some(m[k]) else None
  }

  ghost predicate JobOk(w: World, id: nat)
    requires id in w.db.jobs
  {
    var job := w.db.jobs[id];
    && id in w.used && id in w.db.authority
    && ViewAgrees(id, job, w.db.authority[id])
    && HistoryOk(id, job, w.claims, w.db.epoch)
    && (job.Active() ==> w.db.engine == RustEngine && Get(w.admittedIn, id) == Some(w.db.epoch))
    && OutcomeOk(job, w.db.authority[id], Get(w.db.publications, id))
  }

  ghost predicate ClaimOk(w: World, t: nat)
    requires t in w.claims
  {
    var c := w.claims[t];
    && t in w.used && c.token == t && c.owner.RustWorker?
    && c.job in w.db.jobs && c.view == w.db.jobs[c.job].view
    && 1 <= c.attempt <= w.db.jobs[c.job].attempt
    && Get(w.db.authority, c.job) == Some(AuthorityRow(c.authority, c.digest))
  }

  /** All running jobs belong to one lease identity. */
  ghost predicate OneRunner(jobs: map<nat, Job>) {
    forall i, j :: i in jobs && j in jobs && jobs[i].status.Running? && jobs[j].status.Running?
      ==> jobs[i].owner == jobs[j].owner
  }

  ghost predicate RowsOk(db: Db) {
    && db.authority.Keys == db.jobs.Keys && db.publications.Keys <= db.jobs.Keys
    && (db.engine == RustEngine ==> db.epoch > 0)
    && UniqueKeys(db.jobs) && OneRunner(db.jobs)
    && |ActiveJobs(db.jobs)| <= MAX_QUEUE
  }

  ghost predicate RetiredOk(w: World) {
    forall o :: o in w.retired ==> o.RustWorker? && o.tenure in w.used
  }

  ghost predicate Inv(w: World) {
    && (forall id {:trigger JobOk(w, id)} :: id in w.db.jobs ==> JobOk(w, id))
    && (forall t {:trigger ClaimOk(w, t)} :: t in w.claims ==> ClaimOk(w, t))
    && RowsOk(w.db)
    && RetiredOk(w)
  }

  // ---------------------------------------------------------------- steps that rewrite one job

  lemma SubsetSize<T>(a: set<T>, b: set<T>)
    requires a <= b
    ensures |a| <= |b|
  {
    assert b == a + (b - a);
  }

  lemma AdmitKeepsInv(w: World, sub: Submission, t: int, id: nat)
    requires Inv(w) && id !in w.used
    ensures Inv(AdmitStep(w, sub, t, id))
  {
    var w' := AdmitStep(w, sub, t, id);
    var tx := Admit(w.db, sub, t, id);
    if tx.result.Ok? && !tx.result.value.duplicate {
      NewJobKeepsInv(w, w', sub, t, id);
    } else {
      assert w' == w;
    }
  }

  lemma NewJobKeepsInv(w: World, w': World, sub: Submission, t: int, id: nat)
    requires Inv(w) && id !in w.used && w.db.engine == RustEngine && !Malformed(sub)
    requires |ActiveJobs(w.db.jobs)| < MAX_QUEUE
    requires sub.key.Some? ==> !exists i :: HoldsKey(w.db.jobs, sub.key.value, i)
    requires var a := NewAuthority(sub, t, id);
      w' == w.(db := w.db.(jobs := w.db.jobs[id := NewJob(sub, t, id)],
                           authority := w.db.authority[id := AuthorityRow(a, Digest(a))]),
               used := w.used + {id}, admittedIn := w.admittedIn[id := w.db.epoch])
    ensures Inv(w')
  {
    assert id in w.db.jobs ==> JobOk(w, id);
    NoClaims(w, id);
    NewJobOk(w', sub, t, id);
    NewJobKeepsOthers(w, w', id, NewJob(sub, t, id), w'.db.authority[id]);
    NewJobRows(w.db, NewJob(sub, t, id), id, w'.db.authority[id]);
  }

  /** A job untouched by a step stays sound: it depends only on its own rows, its claims and the route. */
  lemma SameJob(w: World, w': World, id: nat)
    requires id in w.db.jobs && JobOk(w, id)
    requires Get(w'.db.jobs, id) == Some(w.db.jobs[id])
    requires Get(w'.db.authority, id) == Some(w.db.authority[id])
    requires Get(w'.db.publications, id) == Get(w.db.publications, id)
    requires Get(w'.admittedIn, id) == Get(w.admittedIn, id)
    requires w'.claims == w.claims && w'.db.engine == w.db.engine && w'.db.epoch == w.db.epoch
    requires w.used <= w'.used
    ensures JobOk(w', id)
  {
  }

  lemma NewJobKeepsOthers(w: World, w': World, id: nat, job: Job, row: AuthorityRow)
    requires Inv(w) && id !in w.db.jobs
    requires w' == w.(db := w.db.(jobs := w.db.jobs[id := job], authority := w.db.authority[id := row]),
                      used := w.used + {id}, admittedIn := w.admittedIn[id := w.db.epoch])
    ensures forall i {:trigger JobOk(w', i)} :: i in w.db.jobs ==> JobOk(w', i)
    ensures forall k {:trigger ClaimOk(w', k)} :: k in w'.claims ==> ClaimOk(w', k)
  {
    forall i | i in w.db.jobs ensures JobOk(w', i) {
      assert JobOk(w, i);
      SameJob(w, w', i);
    }
    forall k | k in w'.claims ensures ClaimOk(w', k) { assert ClaimOk(w, k); }
  }

  lemma NewJobOk(w: World, sub: Submission, t: int, id: nat)
    requires var a := NewAuthority(sub, t, id);
      && Get(w.db.jobs, id) == Some(NewJob(sub, t, id))
      && Get(w.db.authority, id) == Some(AuthorityRow(a, Digest(a)))
    requires id !in w.db.publications && ClaimsOf(w.claims, id) == {} && id in w.used
    requires w.db.engine == RustEngine && Get(w.admittedIn, id) == Some(w.db.epoch) && !Malformed(sub)
    ensures JobOk(w, id)
  {
  }

  lemma NewJobRows(db: Db, job: Job, id: nat, row: AuthorityRow)
    requires RowsOk(db) && id !in db.jobs && job.status.Queued? && db.engine == RustEngine
    requires |ActiveJobs(db.jobs)| < MAX_QUEUE
    requires job.key.Some? ==> !exists i :: HoldsKey(db.jobs, job.key.value, i)
    ensures RowsOk(db.(jobs := db.jobs[id := job], authority := db.authority[id := row]))
  {
    NewKeyIsUnique(db.jobs, job, id);
    NewJobIsActive(db.jobs, job, id);
  }

  lemma NewKeyIsUnique(jobs: map<nat, Job>, job: Job, id: nat)
    requires UniqueKeys(jobs) && id !in jobs
    requires job.key.Some? ==> !exists i :: HoldsKey(jobs, job.key.value, i)
    ensures UniqueKeys(jobs[id := job])
  {
    forall i | i in jobs && job.key.Some? ensures jobs[i].key != job.key {
      assert !HoldsKey(jobs, job.key.value, i);
    }
  }

  lemma NewJobIsActive(jobs: map<nat, Job>, job: Job, id: nat)
    requires OneRunner(jobs) && id !in jobs && job.status.Queued?
    ensures OneRunner(jobs[id := job]) && |ActiveJobs(jobs[id := job])| == |ActiveJobs(jobs)| + 1
  {
    assert ActiveJobs(jobs[id := job]) == ActiveJobs(jobs) + {id};
  }

  lemma OneJobRows(db: Db, k: nat, job: Job, publications: map<nat, Publication>)
    requires RowsOk(db) && k in db.jobs && publications.Keys <= db.jobs.Keys
    requires var a := db.jobs[k];
      && job.key == a.key && job.owner == a.owner
      && (job.Active() ==> a.Active()) && (job.status.Running? ==> a.status.Running?)
    ensures RowsOk(db.(jobs := db.jobs[k := job], publications := publications))
  {
    SubsetSize(ActiveJobs(db.jobs[k := job]), ActiveJobs(db.jobs));
  }

  lemma NoClaims(w: World, id: nat)
    requires forall t {:trigger ClaimOk(w, t)} :: t in w.claims ==> ClaimOk(w, t)
    requires id !in w.db.jobs
    ensures ClaimsOf(w.claims, id) == {}
  {
    forall t | t in w.claims ensures w.claims[t].job != id { assert ClaimOk(w, t); }
  }

  /** Rewriting one job keeps the invariant when the new row is sound and keeps what claims rest on. */
  lemma OneJobKeepsInv(w: World, w': World, k: nat)
    requires Inv(w) && k in w.db.jobs
    requires w' == w.(db := w.db.(jobs := w'.db.jobs, publications := w'.db.publications))
    requires k in w'.db.jobs && w'.db.jobs == w.db.jobs[k := w'.db.jobs[k]]
    requires forall id :: id != k ==> Get(w'.db.publications, id) == Get(w.db.publications, id)
    requires JobOk(w', k)
    requires var a, b := w.db.jobs[k], w'.db.jobs[k];
      && b.attempt == a.attempt && b.view == a.view && b.key == a.key && b.owner == a.owner
      && (b.Active() ==> a.Active()) && (b.status.Running? ==> a.status.Running?)
    ensures Inv(w')
  {
    forall id | id in w'.db.jobs && id != k ensures JobOk(w', id) { assert JobOk(w, id); SameJob(w, w', id); }
    forall t | t in w'.claims ensures ClaimOk(w', t) { assert ClaimOk(w, t); }
    forall id | id in w'.db.publications ensures id in w.db.jobs {
      assert id != k ==> Get(w'.db.publications, id) == Get(w.db.publications, id);
    }
    OneJobRows(w.db, k, w'.db.jobs[k], w'.db.publications);
  }

  lemma CancelKeepsInv(w: World, id: nat, t: int)
    requires Inv(w)
    ensures Inv(w.(db := Cancel(w.db, id, t).db))
  {
    var w' := w.(db := Cancel(w.db, id, t).db);
    if w'.db != w.db {
      assert JobOk(w, id);
      OneJobKeepsInv(w, w', id);
    } else {
      assert w' == w;
    }
  }

  lemma FailKeepsInv(w: World, c: Claim, text: string, t0: int, t1: int)
    requires Inv(w)
    ensures Inv(w.(db := Fail(w.db, c, text, t0, t1).db))
  {
    var w' := w.(db := Fail(w.db, c, text, t0, t1).db);
    if w'.db != w.db {
      assert JobOk(w, c.job);
      OneJobKeepsInv(w, w', c.job);
    } else {
      assert w' == w;
    }
  }

  lemma PublishKeepsInv(w: World, c: Claim, manifest: nat, t0: int, t1: int)
    requires Inv(w) && Issued(w, c)
    ensures Inv(w.(db := Publish(w.db, c, manifest, t0, t1).db))
  {
    var w' := w.(db := Publish(w.db, c, manifest, t0, t1).db);
    if w'.db != w.db {
      assert JobOk(w, c.job);
      OneJobKeepsInv(w, w', c.job);
    } else {
      assert w' == w;
    }
  }

  // ---------------------------------------------------------------- lease, route and history

  lemma CutoverKeepsInv(w: World, engine: Engine, t: int)
    requires Inv(w)
    ensures Inv(w.(db := Cutover(w.db, engine, t).db))
  {
    var w' := w.(db := Cutover(w.db, engine, t).db);
    if w'.db != w.db {
      forall id | id in w.db.jobs ensures JobOk(w', id) {
        assert JobOk(w, id);
        NoActiveJob(w, engine, t, id);
        InactiveJob(w, w', id);
      }
      forall k | k in w'.claims ensures ClaimOk(w', k) { assert ClaimOk(w, k); }
    } else {
      assert w' == w;
    }
  }

  /** A job that is not active does not depend on the route. */
  lemma InactiveJob(w: World, w': World, id: nat)
    requires id in w.db.jobs && JobOk(w, id) && !w.db.jobs[id].Active()
    requires w' == w.(db := w.db.(engine := w'.db.engine, epoch := w'.db.epoch))
    ensures JobOk(w', id)
  {
  }

  /** A cutover that changes the route finds no active native job, in either direction. */
  lemma NoActiveJob(w: World, engine: Engine, t: int, id: nat)
    requires Inv(w) && id in w.db.jobs
    requires Cutover(w.db, engine, t).db != w.db
    ensures !w.db.jobs[id].Active()
  {
    assert JobOk(w, id);
    assert w.db.jobs[id].Active() ==> id in ActiveJobs(w.db.jobs);
  }

  /** Steps that leave job rows, route and claims alone. */
  lemma FrameKeepsInv(w: World, w': World)
    requires Inv(w)
    requires w'.db.jobs == w.db.jobs && w'.db.authority == w.db.authority && w'.db.publications == w.db.publications
    requires w'.db.engine == w.db.engine && w'.db.epoch == w.db.epoch
    requires w'.claims == w.claims && w'.admittedIn == w.admittedIn && w.used <= w'.used
    requires RetiredOk(w')
    ensures Inv(w')
  {
    forall id | id in w'.db.jobs ensures JobOk(w', id) { assert JobOk(w, id); }
    forall t | t in w'.claims ensures ClaimOk(w', t) { assert ClaimOk(w, t); }
  }

  // ---------------------------------------------------------------- the claim step

  /** What a claim that passes the fence makes of one job row. */
  ghost predicate ClaimEffect(before: Job, after: Job, owner: Owner, started: bool, token: nat) {
    var a := Requeue(before, owner);
    if started then a.status.Queued? && a.attempt < MAX_ATTEMPTS && after == Start(a, owner, token)
    else after == a || (a.status.Queued? && exists reason, t :: after == Expire(a, reason, t))
  }

  /** The world after a claim transaction, row by row. */
  ghost predicate ClaimWorld(w: World, w': World, owner: Owner, epoch: nat, token: nat, chosen: Option<nat>) {
    && w'.db.jobs.Keys == w.db.jobs.Keys
    && w' == w.(db := w.db.(jobs := w'.db.jobs), used := w'.used, claims := w'.claims)
    && (forall id :: id in w.db.jobs ==>
          ClaimEffect(w.db.jobs[id], w'.db.jobs[id], owner, chosen == Some(id), token))
    && match chosen
       case None => w'.claims == w.claims && w'.used == w.used
       case Some(k) =>
         && k in w.db.jobs && k in w.db.authority && w'.used == w.used + {token}
         && w'.claims == w.claims[token :=
              NewClaim(Requeue(w.db.jobs[k], owner), w.db.authority[k], k, owner, epoch, token)]
  }

  lemma ClaimedRow(jobs: map<nat, Job>, authority: map<nat, AuthorityRow>, owner: Owner, token: nat,
                   at: nat -> int, fin: nat -> int, id: nat)
    requires id in jobs
    ensures var queue := Requeued(jobs, owner);
      var chosen := Chosen(queue, authority, at);
      ClaimEffect(jobs[id], ClaimedJobs(queue, authority, owner, token, at, fin, chosen)[id],
                  owner, chosen == Some(id), token)
  {
    var queue := Requeued(jobs, owner);
    var chosen := Chosen(queue, authority, at);
    var after := ClaimedJobs(queue, authority, owner, token, at, fin, chosen)[id];
    if chosen != Some(id) && after != queue[id] {
      assert after == Expire(queue[id], Reason(authority, at, id), fin(id));
    }
  }

  lemma ClaimIsRowwise(w: World, owner: Owner, epoch: nat, t: int, at: nat -> int, fin: nat -> int, token: nat)
    requires Fence(w.db, owner, epoch, t).None?
    ensures ClaimWorld(w, ClaimStep(w, owner, epoch, t, at, fin, token), owner, epoch, token,
                       Chosen(Requeued(w.db.jobs, owner), w.db.authority, at))
  {
    forall id | id in w.db.jobs { ClaimedRow(w.db.jobs, w.db.authority, owner, token, at, fin, id); }
  }

  lemma ClaimKeepsJob(w: World, w': World, owner: Owner, epoch: nat, token: nat, chosen: Option<nat>, id: nat)
    requires Inv(w) && token !in w.used && id in w.db.jobs
    requires w.db.engine == RustEngine && w.db.epoch == epoch
    requires ClaimWorld(w, w', owner, epoch, token, chosen)
    ensures JobOk(w', id)
  {
    assert JobOk(w, id);
    assert token in w.claims ==> ClaimOk(w, token);
    NewToken(w.claims, w'.claims, token, id);
    ClaimKeepsHistory(w, w', owner, epoch, token, chosen, id);
  }

  lemma ClaimKeepsHistory(w: World, w': World, owner: Owner, epoch: nat, token: nat, chosen: Option<nat>, id: nat)
    requires id in w.db.jobs && JobOk(w, id) && token !in w.claims && w.db.epoch == epoch
    requires ClaimWorld(w, w', owner, epoch, token, chosen)
    requires |ClaimsOf(w'.claims, id)| ==
             |ClaimsOf(w.claims, id)| + if token in w'.claims && w'.claims[token].job == id then 1 else 0
    ensures HistoryOk(id, w'.db.jobs[id], w'.claims, epoch)
  {
    assert ClaimEffect(w.db.jobs[id], w'.db.jobs[id], owner, chosen == Some(id), token);
  }

  lemma NewToken(claims: map<nat, Claim>, claims': map<nat, Claim>, token: nat, id: nat)
    requires token !in claims
    requires claims' == claims || (token in claims' && claims' == claims[token := claims'[token]])
    ensures |ClaimsOf(claims', id)| ==
            |ClaimsOf(claims, id)| + if token in claims' && claims'[token].job == id then 1 else 0
  {
    if token in claims' && claims'[token].job == id {
      assert ClaimsOf(claims', id) == ClaimsOf(claims, id) + {token};
    } else {
      assert ClaimsOf(claims', id) == ClaimsOf(claims, id);
    }
  }

  /** What a claim does to a row as far as the other rows and the claims issued for it are concerned. */
  lemma ClaimEffectOnRow(before: Job, after: Job, owner: Owner, started: bool, token: nat)
    requires ClaimEffect(before, after, owner, started, token)
    ensures after.key == before.key && (after.Active() ==> before.Active())
    ensures after.status.Running? ==> after.owner == Some(owner)
    ensures after.view == before.view && after.attempt >= before.attempt
  {
  }

  lemma ClaimKeepsClaim(w: World, w': World, owner: Owner, epoch: nat, token: nat, chosen: Option<nat>, k: nat)
    requires Inv(w) && owner.RustWorker? && token !in w.used && k in w'.claims
    requires ClaimWorld(w, w', owner, epoch, token, chosen)
    ensures ClaimOk(w', k)
  {
    if k in w.claims {
      assert ClaimOk(w, k);
      var id := w.claims[k].job;
      ClaimEffectOnRow(w.db.jobs[id], w'.db.jobs[id], owner, chosen == Some(id), token);
    } else {
      assert JobOk(w, chosen.value);
    }
  }

  lemma OwnedRows(jobs: map<nat, Job>, jobs': map<nat, Job>, owner: Owner)
    requires jobs'.Keys == jobs.Keys && UniqueKeys(jobs) && |ActiveJobs(jobs)| <= MAX_QUEUE
    requires forall id :: id in jobs ==>
      jobs'[id].key == jobs[id].key && (jobs'[id].Active() ==> jobs[id].Active())
      && (jobs'[id].status.Running? ==> jobs'[id].owner == Some(owner))
    ensures UniqueKeys(jobs') && OneRunner(jobs') && |ActiveJobs(jobs')| <= MAX_QUEUE
  {
    SubsetSize(ActiveJobs(jobs'), ActiveJobs(jobs));
  }

  lemma ClaimKeepsRows(w: World, w': World, owner: Owner, epoch: nat, token: nat, chosen: Option<nat>)
    requires RowsOk(w.db) && ClaimWorld(w, w', owner, epoch, token, chosen)
    ensures RowsOk(w'.db)
    ensures forall id :: id in w'.db.jobs && w'.db.jobs[id].status.Running? ==> w'.db.jobs[id].owner == Some(owner)
  {
    forall id | id in w.db.jobs
      ensures w'.db.jobs[id].key == w.db.jobs[id].key && (w'.db.jobs[id].Active() ==> w.db.jobs[id].Active())
      ensures w'.db.jobs[id].status.Running? ==> w'.db.jobs[id].owner == Some(owner)
    {
      ClaimEffectOnRow(w.db.jobs[id], w'.db.jobs[id], owner, chosen == Some(id), token);
    }
    OwnedRows(w.db.jobs, w'.db.jobs, owner);
  }

  lemma ClaimKeepsInv(w: World, owner: Owner, epoch: nat, t: int, at: nat -> int, fin: nat -> int, token: nat)
    requires Inv(w) && owner.RustWorker? && token !in w.used
    ensures Inv(ClaimStep(w, owner, epoch, t, at, fin, token))
  {
    var w' := ClaimStep(w, owner, epoch, t, at, fin, token);
    if Fence(w.db, owner, epoch, t).None? {
      var chosen := Chosen(Requeued(w.db.jobs, owner), w.db.authority, at);
      ClaimIsRowwise(w, owner, epoch, t, at, fin, token);
      forall id | id in w'.db.jobs ensures JobOk(w', id) {
        ClaimKeepsJob(w, w', owner, epoch, token, chosen, id);
      }
      forall k | k in w'.claims ensures ClaimOk(w', k) {
        ClaimKeepsClaim(w, w', owner, epoch, token, chosen, k);
      }
      ClaimKeepsRows(w, w', owner, epoch, token, chosen);
    } else {
      assert w' == w;
    }
  }

  // ---------------------------------------------------------------- every step, every run

  /** Every allowed step keeps the invariant. */
  lemma StepKeepsInv(w: World, e: Event)
    requires Inv(w) && Allowed(w, e)
    ensures Inv(Step(w, e))
  {
    match e {
      case DoAdmit(sub, t, id) => AdmitKeepsInv(w, sub, t, id);
      case DoCancel(id, t) => CancelKeepsInv(w, id, t);
      case DoCutover(engine, t) => CutoverKeepsInv(w, engine, t);
      case DoClaim(owner, epoch, t, at, fin, token) => ClaimKeepsInv(w, owner, epoch, t, at, fin, token);
      case DoFail(c, text, t, t1) => FailKeepsInv(w, c, text, t, t1);
      case DoPublish(c, manifest, t, t1) => PublishKeepsInv(w, c, manifest, t, t1);
      case _ => LeaseStepKeepsInv(w, e);
    }
  }

  predicate LeaseStep(e: Event) {
    !e.DoAdmit? && !e.DoCancel? && !e.DoCutover? && !e.DoClaim? && !e.DoFail? && !e.DoPublish?
  }

  lemma LeaseStepKeepsInv(w: World, e: Event)
    requires Inv(w) && Allowed(w, e) && LeaseStep(e)
    ensures Inv(Step(w, e))
  {
    LeaseStepFrame(w, e);
    FrameKeepsInv(w, Step(w, e));
  }

  lemma LeaseStepFrame(w: World, e: Event)
    requires RetiredOk(w) && Allowed(w, e) && LeaseStep(e)
    ensures var w' := Step(w, e);
      && w'.db.jobs == w.db.jobs && w'.db.authority == w.db.authority && w'.db.publications == w.db.publications
      && w'.db.engine == w.db.engine && w'.db.epoch == w.db.epoch
      && w'.claims == w.claims && w'.admittedIn == w.admittedIn && w.used <= w'.used
      && RetiredOk(w')
  {
  }

  lemma {:induction false} RunKeepsInv(w: World, run: seq<Event>)
    requires Inv(w) && Permitted(w, run)
    ensures Inv(After(w, run))
    decreases |run|
  {
    if run != [] {
      StepKeepsInv(w, run[0]);
      RunKeepsInv(Step(w, run[0]), run[1..]);
    }
  }

  /** The invariant holds in every reachable world. */
  lemma ReachableInv(run: seq<Event>)
    requires Permitted(Start0, run)
    ensures Inv(After(Start0, run))
  {
    assert ActiveJobs(Start0.db.jobs) == {};
    RunKeepsInv(Start0, run);
  }

  lemma ReachableSound(w: World)
    requires Reachable(w)
    ensures Inv(w)
  {
    var run: seq<Event> :| Permitted(Start0, run) && After(Start0, run) == w;
    ReachableInv(run);
  }

  lemma {:induction false} OneMore(w: World, run: seq<Event>, e: Event)
    requires Permitted(w, run) && Allowed(After(w, run), e)
    ensures Permitted(w, run + [e]) && After(w, run + [e]) == Step(After(w, run), e)
    decreases |run|
  {
    if run == [] {
      assert [] + [e] == [e] && [e][1..] == [];
    } else {
      assert (run + [e])[1..] == run[1..] + [e];
      OneMore(Step(w, run[0]), run[1..], e);
    }
  }

  lemma ReachableStep(w: World, e: Event)
    requires Reachable(w) && Allowed(w, e)
    ensures Reachable(Step(w, e))
  {
    var run: seq<Event> :| Permitted(Start0, run) && After(Start0, run) == w;
    OneMore(Start0, run, e);
  }
}
