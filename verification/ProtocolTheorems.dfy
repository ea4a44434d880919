/** What holds over every run of the protocol, for any interleaving and any clock readings. */
module ProtocolTheorems {
  import opened Common
  import opened Protocol
  import opened ProtocolInvariant

  // ---------------------------------------------------------------- one step of one job

  /** Work left in a job: it bounds the status changes still to come. */
  function Measure(job: Job): nat
    requires job.attempt <= MAX_ATTEMPTS
  {
    match job.status
    case Queued => 2 * (MAX_ATTEMPTS - job.attempt) + 1
    case Running => 2 * (MAX_ATTEMPTS - job.attempt) + 2
    case _ => 0
  }

  predicate SameRecord(a: Job, b: Job) {
    && b.schema == a.schema && b.revision == a.revision && b.view == a.view
    && b.createdAt == a.createdAt && b.key == a.key
  }

  /**
   * Status updates between two versions of a row. A claim that takes over another worker's attempt
   * first requeues it, so restarting or failing a running job counts as two.
   */
  function Updates(a: Job, b: Job): nat {
    if a.status == b.status && a.attempt == b.attempt then 0
    else if a.status.Running? && (b.status.Running? || b.status.Error?) then 2
    else 1
  }

  /** How one step may change a job, when `used` are the identities drawn before it. */
  ghost predicate Evolves(a: Job, b: Job, used: set<nat>) {
    && SameRecord(a, b)
    && (!a.Active() ==> b == a)
    && a.attempt <= b.attempt <= MAX_ATTEMPTS
    && (b.token.Some? && b.token != a.token ==> b.token.value !in used)
    && (b == a || 1 <= Updates(a, b) <= Measure(a) - Measure(b))
  }

  lemma EffectEvolves(a: Job, b: Job, owner: Owner, started: bool, token: nat, used: set<nat>)
    requires ClaimEffect(a, b, owner, started, token) && a.attempt <= MAX_ATTEMPTS && token !in used
    ensures Evolves(a, b, used)
  {
  }

  lemma ClaimEvolves(w: World, owner: Owner, epoch: nat, t: int, at: nat -> int, fin: nat -> int, token: nat, id: nat)
    requires token !in w.used && id in w.db.jobs && w.db.jobs[id].attempt <= MAX_ATTEMPTS
    ensures var w' := ClaimStep(w, owner, epoch, t, at, fin, token);
      id in w'.db.jobs && Evolves(w.db.jobs[id], w'.db.jobs[id], w.used)
      && w'.db.authority == w.db.authority && w'.db.publications == w.db.publications
  {
    if Fence(w.db, owner, epoch, t).None? {
      var queue := Requeued(w.db.jobs, owner);
      var chosen := Chosen(queue, w.db.authority, at);
      ClaimedRow(w.db.jobs, w.db.authority, owner, token, at, fin, id);
      EffectEvolves(w.db.jobs[id], ClaimedJobs(queue, w.db.authority, owner, token, at, fin, chosen)[id],
                    owner, chosen == Some(id), token, w.used);
    }
  }

  lemma AdmitEvolves(w: World, sub: Submission, t: int, new_id: nat, id: nat)
    requires new_id !in w.used && id in w.db.jobs && JobOk(w, id)
    ensures var w' := AdmitStep(w, sub, t, new_id);
      Get(w'.db.jobs, id) == Some(w.db.jobs[id])
      && Get(w'.db.authority, id) == Some(w.db.authority[id]) && w'.db.publications == w.db.publications
  {
  }

  lemma CancelEvolves(w: World, k: nat, t: int, id: nat)
    requires id in w.db.jobs && JobOk(w, id)
    ensures var db := Cancel(w.db, k, t).db;
      && id in db.jobs && Evolves(w.db.jobs[id], db.jobs[id], w.used)
      && db.authority == w.db.authority && db.publications == w.db.publications
  {
  }

  lemma FailEvolves(w: World, c: Claim, text: string, t0: int, t1: int, id: nat)
    requires id in w.db.jobs && JobOk(w, id)
    ensures var db := Fail(w.db, c, text, t0, t1).db;
      && id in db.jobs && Evolves(w.db.jobs[id], db.jobs[id], w.used)
      && db.authority == w.db.authority && db.publications == w.db.publications
  {
  }

  lemma PublishEvolves(w: World, c: Claim, manifest: nat, t0: int, t1: int, id: nat)
    requires id in w.db.jobs && JobOk(w, id)
    ensures var db := Publish(w.db, c, manifest, t0, t1).db;
      && id in db.jobs && Evolves(w.db.jobs[id], db.jobs[id], w.used)
      && db.authority == w.db.authority
      && (id in w.db.publications ==> Get(db.publications, id) == Get(w.db.publications, id))
  {
  }

  /** A cutover and the steps of leases and tenures leave the rows of jobs alone. */
  lemma QuietStep(w: World, e: Event)
    requires RetiredOk(w) && Allowed(w, e) && (e.DoCutover? || LeaseStep(e))
    ensures var db := Step(w, e).db;
      db.jobs == w.db.jobs && db.authority == w.db.authority && db.publications == w.db.publications
  {
    if LeaseStep(e) {
      LeaseStepFrame(w, e);
    }
  }

  /** The row of a job after a step: the same record, moved forward, with its publication kept. */
  ghost predicate Forward(db: Db, db': Db, id: nat, used: set<nat>)
    requires id in db.jobs
  {
    && id in db'.jobs && Evolves(db.jobs[id], db'.jobs[id], used)
    && Get(db'.authority, id) == Get(db.authority, id)
    && (id in db.publications ==> Get(db'.publications, id) == Get(db.publications, id))
  }

  lemma JobStepForward(w: World, e: Event, id: nat)
    requires Allowed(w, e) && !e.DoCutover? && !LeaseStep(e) && id in w.db.jobs && JobOk(w, id)
    ensures Forward(w.db, Step(w, e).db, id, w.used)
  {
    match e {
      case DoAdmit(sub, t, new_id) => AdmitEvolves(w, sub, t, new_id, id);
      case DoClaim(owner, epoch, t, at, fin, token) => ClaimEvolves(w, owner, epoch, t, at, fin, token, id);
      case DoCancel(k, t) => CancelEvolves(w, k, t, id);
      case DoFail(c, text, t, t1) => FailEvolves(w, c, text, t, t1, id);
      case DoPublish(c, manifest, t, t1) => PublishEvolves(w, c, manifest, t, t1, id);
    }
  }

  /** Every step keeps a job's record, moves it forward, and leaves finished jobs and publications alone. */
  lemma StepEvolves(w: World, e: Event, id: nat)
    requires Inv(w) && Allowed(w, e) && id in w.db.jobs
    ensures var w' := Step(w, e);
      && id in w'.db.jobs && Evolves(w.db.jobs[id], w'.db.jobs[id], w.used)
      && Get(w'.db.authority, id) == Get(w.db.authority, id)
      && (id in w.db.publications ==> Get(w'.db.publications, id) == Get(w.db.publications, id))
  {
    assert JobOk(w, id);
    if e.DoCutover? || LeaseStep(e) {
      QuietStep(w, e);
    } else {
      JobStepForward(w, e, id);
    }
  }

  /** Identities and claims are never forgotten, and the ended tenures stay ended. */
  lemma StepKeepsHistory(w: World, e: Event)
    requires Inv(w) && Allowed(w, e)
    ensures var w' := Step(w, e);
      && w.used <= w'.used && w.retired <= w'.retired
      && forall t :: t in w.claims ==> Get(w'.claims, t) == Some(w.claims[t])
  {
    match e {
      case DoAdmit(sub, t, id) =>
      case DoClaim(owner, epoch, t, at, fin, token) => assert token in w.claims ==> ClaimOk(w, token);
      case DoCancel(k, t) =>
      case DoCutover(engine, t) =>
      case DoFail(c, text, t, t1) =>
      case DoPublish(c, manifest, t, t1) =>
      case _ => LeaseStepFrame(w, e);
    }
  }

  // ---------------------------------------------------------------- publication

  /** A token current on a running job belongs to its last claim and to the present epoch. */
  lemma CurrentClaim(w: World, c: Claim)
    requires Inv(w) && Issued(w, c) && Current(w.db, c)
    ensures w.db.engine == RustEngine && w.db.epoch == c.epoch && Get(w.admittedIn, c.job) == Some(c.epoch)
    ensures w.db.jobs[c.job].attempt == c.attempt == |ClaimsOf(w.claims, c.job)|
    ensures w.db.jobs[c.job].owner == Some(c.owner)
  {
    assert JobOk(w, c.job);
  }

  /**
   * Which fences of the final transaction carry weight. For an issued claim in a reachable world the
   * routing epoch and the admission record never decide: publication succeeds exactly when the lease
   * is live, the token is current and the original deadline has not passed.
   */
  lemma PublishesExactly(w: World, c: Claim, manifest: nat, t0: int, t1: int)
    requires Inv(w) && Issued(w, c)
    ensures var r := Publish(w.db, c, manifest, t0, t1).result;
      && (r.Ok? <==> Live(w.db, c.owner, t0) && Current(w.db, c) && t1 < c.authority.deadline)
      && (r.Refused? ==> r.error in {NotInitialized, LeaseLost, RouteChanged, Superseded, DeadlinePassed})
      && (r.Refused? && r.error == RouteChanged ==> !Current(w.db, c))
  {
    assert ClaimOk(w, c.token);
    assert JobOk(w, c.job);
  }

  lemma {:induction false} FinishedForever(w: World, run: seq<Event>, id: nat)
    requires Inv(w) && Permitted(w, run) && id in w.db.jobs && !w.db.jobs[id].Active()
    ensures Get(After(w, run).db.jobs, id) == Some(w.db.jobs[id])
    ensures Get(After(w, run).db.publications, id) == Get(w.db.publications, id)
    decreases |run|
  {
    RunKeepsInv(w, run);
    if run != [] {
      StepEvolves(w, run[0], id);
      StepKeepsInv(w, run[0]);
      assert JobOk(w, id) && JobOk(Step(w, run[0]), id);
      FinishedForever(Step(w, run[0]), run[1..], id);
    }
  }

  lemma StepKeepsStale(w: World, e: Event, c: Claim)
    requires Inv(w) && Allowed(w, e) && Issued(w, c) && !Current(w.db, c)
    ensures Issued(Step(w, e), c) && !Current(Step(w, e).db, c)
  {
    StepKeepsHistory(w, e);
    assert ClaimOk(w, c.token);
    StepEvolves(w, e, c.job);
    assert JobOk(w, c.job);
    StepKeepsInv(w, e);
    assert JobOk(Step(w, e), c.job);
  }

  /** A cancelled, superseded or finished claim is dead: no later state lets it publish or fail its job. */
  lemma {:induction false} StaleForever(w: World, run: seq<Event>, c: Claim, manifest: nat, text: string, t0: int,
                                        t1: int)
    requires Inv(w) && Permitted(w, run) && Issued(w, c) && !Current(w.db, c)
    ensures var w' := After(w, run);
      && Issued(w', c) && !Current(w'.db, c)
      && Publish(w'.db, c, manifest, t0, t1).result.Refused? && Publish(w'.db, c, manifest, t0, t1).db == w'.db
      && Fail(w'.db, c, text, t0, t1).result.Refused? && Fail(w'.db, c, text, t0, t1).db == w'.db
    decreases |run|
  {
    if run == [] {
      PublishesExactly(w, c, manifest, t0, t1);
    } else {
      StepKeepsStale(w, run[0], c);
      StepKeepsInv(w, run[0]);
      StaleForever(Step(w, run[0]), run[1..], c, manifest, text, t0, t1);
    }
  }

  /**
   * Publication in every reachable world: at most one row per job, exactly on done jobs, for the last
   * claim issued, before the original deadline.
   */
  lemma PublicationsAreFinal(run: seq<Event>, id: nat)
    requires Permitted(Start0, run)
    ensures var w := After(Start0, run);
      && (id in w.db.publications <==> id in w.db.jobs && w.db.jobs[id].status.Done?)
      && (id in w.db.publications ==>
            && w.db.publications[id].attempt == |ClaimsOf(w.claims, id)|
            && (forall t :: t in w.claims && w.claims[t].job == id ==> w.claims[t].attempt <= w.db.publications[id].attempt)
            && id in w.db.authority && w.db.publications[id].createdAt < w.db.authority[id].record.deadline)
  {
    ReachableInv(run);
    var w := After(Start0, run);
    if id in w.db.jobs {
      assert JobOk(w, id);
      forall t | t in w.claims && w.claims[t].job == id ensures w.claims[t].attempt <= w.db.jobs[id].attempt {
        assert ClaimOk(w, t);
      }
    }
  }

  // ---------------------------------------------------------------- bounded work

  /** The status updates of job id along a run. */
  ghost function Changes(w: World, run: seq<Event>, id: nat): nat
    decreases |run|
  {
    if run == [] then 0
    else
      var w' := Step(w, run[0]);
      (if id in w.db.jobs && id in w'.db.jobs then Updates(w.db.jobs[id], w'.db.jobs[id]) else 0)
      + Changes(w', run[1..], id)
  }

  /** Every change of a job uses up its measure, so a job of measure m changes at most m times more. */
  lemma {:induction false} BoundedWork(w: World, run: seq<Event>, id: nat)
    requires Inv(w) && Permitted(w, run) && id in w.db.jobs && w.db.jobs[id].attempt <= MAX_ATTEMPTS
    ensures var w' := After(w, run);
      && id in w'.db.jobs && w'.db.jobs[id].attempt <= MAX_ATTEMPTS
      && Changes(w, run, id) + Measure(w'.db.jobs[id]) <= Measure(w.db.jobs[id])
    decreases |run|
  {
    if run != [] {
      StepEvolves(w, run[0], id);
      StepKeepsInv(w, run[0]);
      BoundedWork(Step(w, run[0]), run[1..], id);
    }
  }

  /** From its admission on, a job has at most seven status changes and three claims. */
  lemma AdmittedJobIsBounded(w: World, sub: Submission, t: int, id: nat, run: seq<Event>)
    requires Inv(w) && id !in w.used
    requires var r := Admit(w.db, sub, t, id).result; r.Ok? && !r.value.duplicate
    requires Permitted(AdmitStep(w, sub, t, id), run)
    ensures var w1 := AdmitStep(w, sub, t, id);
      var w2 := After(w1, run);
      && Changes(w1, run, id) <= 7
      && id in w2.db.jobs && |ClaimsOf(w2.claims, id)| == w2.db.jobs[id].attempt <= 3
  {
    var w1 := AdmitStep(w, sub, t, id);
    AdmitKeepsInv(w, sub, t, id);
    assert w1.db.jobs[id] == NewJob(sub, t, id);
    BoundedWork(w1, run, id);
    RunKeepsInv(w1, run);
    assert JobOk(After(w1, run), id);
  }

  // ---------------------------------------------------------------- admission

  lemma {:induction false} RecordForever(w: World, run: seq<Event>, id: nat)
    requires Inv(w) && Permitted(w, run) && id in w.db.jobs
    ensures var w' := After(w, run);
      && id in w'.db.jobs && SameRecord(w.db.jobs[id], w'.db.jobs[id])
      && Get(w'.db.authority, id) == Get(w.db.authority, id)
    decreases |run|
  {
    if run != [] {
      StepEvolves(w, run[0], id);
      StepKeepsInv(w, run[0]);
      RecordForever(Step(w, run[0]), run[1..], id);
    }
  }

  /**
   * Admission is idempotent for ever: once a key names a job, submitting it again with the same
   * schema, input digest and revision returns that job and its original deadline, and anything else
   * conflicts, whatever happened to the head, the route, the queue and the job since.
   */
  lemma IdempotentAdmission(w: World, run: seq<Event>, id: nat, sub: Submission, t: int, fresh_id: nat)
    requires Inv(w) && Permitted(w, run) && id in w.db.jobs && w.db.initialized
    requires sub.key.Some? && w.db.jobs[id].key == sub.key && !Malformed(sub)
    ensures var w' := After(w, run);
      var tx := Admit(w'.db, sub, t, fresh_id);
      && tx.db == w'.db
      && id in w.db.authority
      && tx.result == (
           var a := w.db.authority[id].record;
           if a.schema == sub.schema && a.raw.sha256 == sub.raw.sha256 && a.revision == sub.expected
           then Ok(Admission(id, true, a.deadline, sub.expected))
           else Refused(IdempotencyConflict))
  {
    var w' := After(w, run);
    RecordForever(w, run, id);
    RunKeepsInv(w, run);
    InitializedForever(w, run);
    assert JobOk(w, id);
    assert HoldsKey(w'.db.jobs, sub.key.value, id);
    assert forall i :: HoldsKey(w'.db.jobs, sub.key.value, i) ==> i == id;
  }

  lemma {:induction false} InitializedForever(w: World, run: seq<Event>)
    requires w.db.initialized
    ensures After(w, run).db.initialized
    decreases |run|
  {
    if run != [] {
      StepKeepsInitialized(w, run[0]);
      InitializedForever(Step(w, run[0]), run[1..]);
    }
  }

  lemma StepKeepsInitialized(w: World, e: Event)
    requires w.db.initialized
    ensures Step(w, e).db.initialized
  {
  }

  /**
   * A cutover waits until the native jobs are drained: while a job is queued or running the workspace is routed to
   * Rust, under the very epoch the job was admitted in.
   */
  lemma EpochSinceAdmission(run: seq<Event>, id: nat)
    requires Permitted(Start0, run)
    ensures var w := After(Start0, run);
      id in w.db.jobs && w.db.jobs[id].Active() ==> w.db.engine == RustEngine && Get(w.admittedIn, id) == Some(w.db.epoch)
  {
    ReachableInv(run);
    var w := After(Start0, run);
    assert id in w.db.jobs ==> JobOk(w, id);
  }

  /** The queue bound, one job per key, and agreement of every job view with its record. */
  lemma AdmissionBounds(run: seq<Event>, i: nat, j: nat)
    requires Permitted(Start0, run)
    ensures var db := After(Start0, run).db;
      && |ActiveJobs(db.jobs)| <= MAX_QUEUE
      && (i in db.jobs && j in db.jobs && db.jobs[i].key.Some? && db.jobs[i].key == db.jobs[j].key ==> i == j)
      && (i in db.jobs ==> i in db.authority && ViewAgrees(i, db.jobs[i], db.authority[i]))
  {
    ReachableInv(run);
    var w := After(Start0, run);
    assert i in w.db.jobs ==> JobOk(w, i);
  }
}
