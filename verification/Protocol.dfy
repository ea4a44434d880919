/**
 * The rows of one workspace and the durable transactions over them (apps/api-rust/src/repo.rs).
 *
 * A transaction is atomic: it is a function from the rows to the rows and a result. Clock readings
 * and random identities are parameters. Identities (jobs, attempt tokens, lease tenures) are
 * naturals; times are integers.
 */
module Protocol {
  import opened Common

  const MAX_QUEUE := 32
  const MAX_ATTEMPTS := 3

  datatype Engine = RustEngine | LegacyEngine

  /** A lease identity. The source tells the two kinds apart by the `rust:` prefix. */
  datatype Owner = RustWorker(tenure: nat) | LegacyWorker(name: nat)

  datatype Raw = Raw(sha256: nat, bytes: nat)

  /** The immutable admission record. */
  datatype Authority = Authority(
    job: nat, schema: string, raw: Raw, revision: int,
    admittedAt: int, deadline: int, executable: string)

  /** SHA-256 of the canonical admission record, as an injective constructor. */
  datatype Digest = Digest(of: Authority)

  datatype AuthorityRow = AuthorityRow(record: Authority, digest: Digest)

  /** The request column of a job: what clients are shown, never what the worker trusts. */
  datatype View = View(schema: string, raw: Raw, digest: Digest, revision: int, deadline: int)

  /** The five native statuses. The legacy statuses are rows of the environment. */
  datatype Status = Queued | Running | Done | Error | Cancelled

  datatype Detail =
    | NoDetail
    | AuthorityMissing
    | DeadlineExpired
    | AttemptsExhausted
    | CancelledByUser
    | Reported(text: string)

  datatype Job = Job(
    schema: string, revision: int, status: Status, view: View, detail: Detail,
    createdAt: int, finishedAt: Option<int>,
    owner: Option<Owner>, attempt: nat, token: Option<nat>, key: Option<string>)
  {
    predicate Active() { status.Queued? || status.Running? }
  }

  datatype Publication = Publication(manifest: nat, attempt: nat, createdAt: int)

  datatype Db = Db(
    initialized: bool, head: int,
    leaseOwner: Option<Owner>, leaseUntil: int,
    engine: Engine, epoch: nat,
    jobs: map<nat, Job>, authority: map<nat, AuthorityRow>, publications: map<nat, Publication>,
    legacyActive: nat)

  /** What a worker holds after a claim. It may be stale by the time it is used. */
  datatype Claim = Claim(
    job: nat, owner: Owner, token: nat, attempt: nat, epoch: nat,
    view: View, authority: Authority, digest: Digest)

  datatype Admission = Admission(job: nat, duplicate: bool, deadline: int, revision: int)

  datatype Submission = Submission(
    schema: string, raw: Raw, expected: int, deadlineSeconds: int,
    executable: string, key: Option<string>)

  datatype Code =
    | NotInitialized | MalformedInput | IdempotencyConflict | NotRouted | StaleRevision | QueueFull
    | NotFound | DrainRequired | LeaseHeld | LeaseLost | RouteChanged | AuthorityChanged
    | Superseded | DeadlinePassed | StorageError
    // Refusals of the worker itself.
    | AuthorityMismatch | CancelledInRun | StreamBound | WorkerRefusal(reason: string)

  datatype Tx<+T> = Tx(db: Db, result: Result<T, Code>)

  // ---------------------------------------------------------------- admission and cancellation

  predicate ValidKey(key: string) {
    1 <= |key| <= 120 && forall c <- key :: '!' <= c <= '~'
  }

  ghost predicate UniqueKeys(jobs: map<nat, Job>) {
    forall i, j :: i in jobs && j in jobs && jobs[i].key.Some? && jobs[i].key == jobs[j].key ==> i == j
  }

  ghost predicate HoldsKey(jobs: map<nat, Job>, key: string, i: nat) {
    i in jobs && jobs[i].key == Some(key)
  }

  function ActiveJobs(jobs: map<nat, Job>): set<nat> {
    set i | i in jobs && jobs[i].Active()
  }

  function SameRequest(job: Job, sub: Submission): bool {
    job.schema == sub.schema && job.view.raw.sha256 == sub.raw.sha256 && job.revision == sub.expected
  }

  function NewAuthority(sub: Submission, t: int, id: nat): Authority {
    Authority(id, sub.schema, sub.raw, sub.expected, t, t + sub.deadlineSeconds, sub.executable)
  }

  function NewJob(sub: Submission, t: int, id: nat): Job {
    var a := NewAuthority(sub, t, id);
    Job(sub.schema, sub.expected, Queued,
        View(sub.schema, sub.raw, Digest(a), sub.expected, a.deadline), NoDetail,
        t, None, None, 0, None, sub.key)
  }

  /** The refusal of a new admission, once no earlier job holds its key. */
  function AdmissionRefusal(db: Db, sub: Submission): Option<Code> {
    if db.engine != RustEngine then Some(NotRouted)
    else if db.head != sub.expected then Some(StaleRevision)
    else if |ActiveJobs(db.jobs)| >= MAX_QUEUE then Some(QueueFull)
    else None
  }

  predicate Malformed(sub: Submission) {
    !(1 <= sub.deadlineSeconds <= 3600) || (sub.key.Some? && !ValidKey(sub.key.value))
  }

  ghost function Admit(db: Db, sub: Submission, t: int, id: nat): Tx<Admission> {
    if Malformed(sub) then Tx(db, Refused(MalformedInput))
    else if !db.initialized then Tx(db, Refused(NotInitialized))
    else if sub.key.Some? && exists i :: HoldsKey(db.jobs, sub.key.value, i) then
      var i :| HoldsKey(db.jobs, sub.key.value, i);
      if SameRequest(db.jobs[i], sub)
      then Tx(db, Ok(Admission(i, true, db.jobs[i].view.deadline, sub.expected)))
      else Tx(db, Refused(IdempotencyConflict))
    else
      match AdmissionRefusal(db, sub)
      case Some(code) => Tx(db, Refused(code))
      case None =>
        var a := NewAuthority(sub, t, id);
        Tx(db.(jobs := db.jobs[id := NewJob(sub, t, id)],
               authority := db.authority[id := AuthorityRow(a, Digest(a))]),
           Ok(Admission(id, false, a.deadline, sub.expected)))
  }

  function Cancel(db: Db, id: nat, t: int): Tx<bool> {
    if !db.initialized then Tx(db, Refused(NotInitialized))
    else if id !in db.authority then Tx(db, Refused(NotFound))
    else if id in db.jobs && db.jobs[id].Active() then
      Tx(db.(jobs := db.jobs[id := db.jobs[id].(
               status := Cancelled, token := None, finishedAt := Some(t), detail := CancelledByUser)]),
         Ok(true))
    else Tx(db, Ok(false))
  }

  // ---------------------------------------------------------------- lease and routing

  predicate Live(db: Db, owner: Owner, t: int) {
    db.initialized && db.leaseOwner == Some(owner) && db.leaseUntil > t
  }

  predicate Free(db: Db, owner: Owner, t: int) {
    db.initialized && (db.leaseUntil < t || db.leaseOwner == Some(owner))
  }

  /** The update of an acquisition, whatever the route is by then. */
  function TakeLease(db: Db, owner: Owner, seconds: int, t: int): Db {
    if Free(db, owner, t) then db.(leaseOwner := Some(owner), leaseUntil := t + seconds) else db
  }

  /** The update of a renewal, whatever the route is by then. */
  function ExtendLease(db: Db, owner: Owner, seconds: int, t: int): Db {
    if Live(db, owner, t) then db.(leaseUntil := t + seconds) else db
  }

  function Acquire(db: Db, owner: Owner, seconds: int, t: int): Tx<Option<nat>> {
    if db.engine == RustEngine && Free(db, owner, t)
    then Tx(TakeLease(db, owner, seconds, t), Ok(Some(db.epoch)))
    else Tx(db, Ok(None))
  }

  function Renew(db: Db, owner: Owner, epoch: nat, seconds: int, t: int): Tx<bool> {
    if db.engine == RustEngine && db.epoch == epoch && Live(db, owner, t)
    then Tx(ExtendLease(db, owner, seconds, t), Ok(true))
    else Tx(db, Ok(false))
  }

  function Release(db: Db, owner: Owner): Db {
    if db.initialized && db.leaseOwner == Some(owner) then db.(leaseUntil := 0) else db
  }

  function Fence(db: Db, owner: Owner, epoch: nat, t: int): Option<Code> {
    if !db.initialized then Some(NotInitialized)
    else if !Live(db, owner, t) then Some(LeaseLost)
    else if db.engine != RustEngine || db.epoch != epoch then Some(RouteChanged)
    else None
  }

  function Cutover(db: Db, engine: Engine, t: int): Tx<(Engine, nat)> {
    if !db.initialized then Tx(db, Refused(NotInitialized))
    else if db.engine == engine && db.epoch > 0 then Tx(db, Ok((db.engine, db.epoch)))
    else if (if engine == RustEngine then db.legacyActive else |ActiveJobs(db.jobs)|) > 0 then
      Tx(db, Refused(DrainRequired))
    else if db.leaseUntil > t
         && (db.leaseOwner.Some? && db.leaseOwner.value.RustWorker?) == (engine == LegacyEngine) then
      Tx(db, Refused(LeaseHeld))
    else Tx(db.(engine := engine, epoch := db.epoch + 1), Ok((engine, db.epoch + 1)))
  }

  // ---------------------------------------------------------------- claiming

  function Requeue(job: Job, owner: Owner): Job {
    if job.status.Running? && job.owner != Some(owner)
    then job.(status := Queued, owner := None, token := None)
    else job
  }

  function Requeued(jobs: map<nat, Job>, owner: Owner): map<nat, Job> {
    map i | i in jobs :: Requeue(jobs[i], owner)
  }

  /** Queue order: creation time, then identity. */
  predicate Before(jobs: map<nat, Job>, i: nat, j: nat)
    requires i in jobs && j in jobs
  {
    jobs[i].createdAt < jobs[j].createdAt || (jobs[i].createdAt == jobs[j].createdAt && i < j)
  }

  /**
   * Whether queued job i may run. `at(i)` is the clock reading taken when its turn comes; nothing
   * relates the readings of different jobs.
   */
  predicate Eligible(jobs: map<nat, Job>, authority: map<nat, AuthorityRow>, at: nat -> int, i: nat) {
    && i in jobs && jobs[i].status.Queued?
    && i in authority && at(i) < authority[i].record.deadline
    && jobs[i].attempt < MAX_ATTEMPTS
  }

  /** i is the first job in queue order that may run. */
  ghost predicate First(jobs: map<nat, Job>, authority: map<nat, AuthorityRow>, at: nat -> int, i: nat) {
    && Eligible(jobs, authority, at, i)
    && forall k :: Eligible(jobs, authority, at, k) && k != i ==> Before(jobs, i, k)
  }

  ghost function Chosen(jobs: map<nat, Job>, authority: map<nat, AuthorityRow>, at: nat -> int): Option<nat> {
    if exists i :: First(jobs, authority, at, i)
    then var i :| First(jobs, authority, at, i); Some(i)
    else None
  }

  /** Why a queued job that may not run fails. */
  function Reason(authority: map<nat, AuthorityRow>, at: nat -> int, i: nat): Detail {
    if i !in authority then AuthorityMissing
    else if at(i) >= authority[i].record.deadline then DeadlineExpired
    else AttemptsExhausted
  }

  function Expire(job: Job, reason: Detail, t: int): Job {
    job.(status := Error, detail := reason, token := None, finishedAt := Some(t))
  }

  function Start(job: Job, owner: Owner, token: nat): Job {
    job.(owner := Some(owner), token := Some(token), attempt := job.attempt + 1, status := Running)
  }

  /** The job rows after a claim chose `chosen`: earlier queued jobs fail, later ones are untouched. */
  ghost function ClaimedJobs(jobs: map<nat, Job>, authority: map<nat, AuthorityRow>,
                             owner: Owner, token: nat, at: nat -> int, fin: nat -> int,
                             chosen: Option<nat>): map<nat, Job>
    requires chosen.Some? ==> chosen.value in jobs
  {
    map i | i in jobs ::
      if chosen == Some(i) then Start(jobs[i], owner, token)
      else if jobs[i].status.Queued? && (chosen.None? || Before(jobs, i, chosen.value))
      then Expire(jobs[i], Reason(authority, at, i), fin(i))
      else jobs[i]
  }

  function NewClaim(job: Job, row: AuthorityRow, id: nat, owner: Owner, epoch: nat, token: nat): Claim {
    Claim(id, owner, token, job.attempt + 1, epoch, job.view, row.record, row.digest)
  }

  ghost function TakeClaim(db: Db, owner: Owner, epoch: nat, t: int, at: nat -> int, fin: nat -> int,
                           token: nat): Tx<Option<Claim>>
  {
    match Fence(db, owner, epoch, t)
    case Some(code) => Tx(db, Refused(code))
    case None =>
      var jobs := Requeued(db.jobs, owner);
      var chosen := Chosen(jobs, db.authority, at);
      Tx(db.(jobs := ClaimedJobs(jobs, db.authority, owner, token, at, fin, chosen)),
         Ok(if chosen.None? then None
            else Some(NewClaim(jobs[chosen.value], db.authority[chosen.value], chosen.value, owner, epoch, token))))
  }

  // ---------------------------------------------------------------- finishing an attempt

  /** The attempt's token is the one on its running job. */
  predicate Current(db: Db, c: Claim) {
    && c.job in db.jobs
    && db.jobs[c.job].status.Running?
    && db.jobs[c.job].token == Some(c.token)
  }

  function Fail(db: Db, c: Claim, text: string, t0: int, t1: int): Tx<()> {
    match Fence(db, c.owner, c.epoch, t0)
    case Some(code) => Tx(db, Refused(code))
    case None =>
      if !Current(db, c) then Tx(db, Refused(Superseded))
      else Tx(db.(jobs := db.jobs[c.job := db.jobs[c.job].(
                    status := Error, detail := Reported(text), token := None, finishedAt := Some(t1))]),
              Ok(()))
  }

  function Publish(db: Db, c: Claim, manifest: nat, t0: int, t1: int): Tx<()> {
    match Fence(db, c.owner, c.epoch, t0)
    case Some(code) => Tx(db, Refused(code))
    case None =>
      if c.job !in db.authority then Tx(db, Refused(AuthorityChanged))
      else
        var row := db.authority[c.job];
        if row.record != c.authority || row.digest != c.digest || Digest(row.record) != row.digest then
          Tx(db, Refused(AuthorityChanged))
        else if !Current(db, c) then Tx(db, Refused(Superseded))
        else if t1 >= row.record.deadline then Tx(db, Refused(DeadlinePassed))
        else if c.job in db.publications then Tx(db, Refused(StorageError))
        else
          Tx(db.(publications := db.publications[c.job := Publication(manifest, c.attempt, t1)],
                 jobs := db.jobs[c.job := db.jobs[c.job].(status := Done, finishedAt := Some(t1))]),
             Ok(()))
  }

  // ---------------------------------------------------------------- the transition system

  /**
   * One atomic step of the whole system: a transaction of any API process, worker or administrator,
   * the end of a lease tenure, or a step of the legacy service. The legacy service only touches
   * rows of its own statuses, takes leases that are not live, and moves the head.
   *
   * Acquisitions and renewals, of both services, take no row lock before they read the route and the clock. Where only
   * that lock serialises, other transactions may come between those readings and the update: the update alone is late.
   * The legacy service renews without looking at the route.
   */
  datatype Event =
    | Initialize
    | DoAdmit(sub: Submission, t: int, id: nat)
    | DoCancel(id: nat, t: int)
    | DoAcquire(owner: Owner, seconds: int, t: int)
    | DoRenew(owner: Owner, epoch: nat, seconds: int, t: int)
    | LateAcquire(owner: Owner, seconds: int, t: int)
    | LateRenew(owner: Owner, seconds: int, t: int)
    | DoRelease(owner: Owner)
    | DoCutover(engine: Engine, t: int)
    | DoClaim(owner: Owner, epoch: nat, t: int, at: nat -> int, fin: nat -> int, token: nat)
    | DoFail(claim: Claim, text: string, t: int, t1: int)
    | DoPublish(claim: Claim, manifest: nat, t: int, t1: int)
    | MoveHead
    | BeginTenure(id: nat)
    | EndTenure(owner: Owner)
    | LegacyAcquire(name: nat, seconds: int, t: int)
    | LateLegacyAcquire(name: nat, seconds: int, t: int)
    | LegacyRenew(name: nat, seconds: int, t: int)
    | LegacyRelease(name: nat)
    | LegacyQueue(active: nat)

  function InitializeRows(db: Db): Db {
    if db.initialized then db else db.(initialized := true, head := 0, leaseOwner := None, leaseUntil := 0)
  }

  function AdvanceHead(db: Db): Db {
    if db.initialized then db.(head := db.head + 1) else db
  }

  function AcquireLegacy(db: Db, name: nat, seconds: int, t: int): Db {
    if db.engine != RustEngine && Free(db, LegacyWorker(name), t)
    then TakeLease(db, LegacyWorker(name), seconds, t)
    else db
  }

  /**
   * The rows with the history the claims speak of: identities drawn so far, the claims issued (by
   * token), the epoch each job was admitted under, and the lease identities whose tenure ended.
   */
  datatype World = World(
    db: Db, used: set<nat>, claims: map<nat, Claim>, admittedIn: map<nat, nat>, retired: set<Owner>)

  /** The claim was returned by some earlier claim transaction. */
  predicate Issued(w: World, c: Claim) {
    c.token in w.claims && w.claims[c.token] == c
  }

  /**
   * What the processes guarantee: drawn identities are new, only issued claims are presented, Rust
   * leases are taken under Rust identities, and an identity whose tenure ended never acts again.
   */
  ghost predicate Allowed(w: World, e: Event) {
    match e
    case DoAdmit(_, _, id) => id !in w.used
    case DoAcquire(owner, _, _) => owner.RustWorker? && owner.tenure in w.used && owner !in w.retired
    case DoRenew(owner, _, _, _) => owner !in w.retired
    case LateAcquire(owner, _, _) => owner.RustWorker? && owner.tenure in w.used && owner !in w.retired
    case LateRenew(owner, _, _) => owner !in w.retired
    case DoRelease(owner) => owner.RustWorker?
    case DoClaim(owner, _, _, _, _, token) => owner.RustWorker? && owner !in w.retired && token !in w.used
    case DoFail(c, _, _, _) => Issued(w, c)
    case DoPublish(c, _, _, _) => Issued(w, c)
    case BeginTenure(id) => id !in w.used
    case EndTenure(owner) => owner.RustWorker? && owner.tenure in w.used
    case _ => true
  }

  ghost function AdmitStep(w: World, sub: Submission, t: int, id: nat): World {
    var tx := Admit(w.db, sub, t, id);
    if tx.result.Ok? && !tx.result.value.duplicate
    then w.(db := tx.db, used := w.used + {id}, admittedIn := w.admittedIn[id := w.db.epoch])
    else w.(db := tx.db)
  }

  ghost function ClaimStep(w: World, owner: Owner, epoch: nat, t: int, at: nat -> int, fin: nat -> int,
                           token: nat): World
  {
    var tx := TakeClaim(w.db, owner, epoch, t, at, fin, token);
    if tx.result.Ok? && tx.result.value.Some?
    then w.(db := tx.db, used := w.used + {token}, claims := w.claims[token := tx.result.value.value])
    else w.(db := tx.db)
  }

  ghost function Step(w: World, e: Event): World {
    match e
    case Initialize => w.(db := InitializeRows(w.db))
    case DoAdmit(sub, t, id) => AdmitStep(w, sub, t, id)
    case DoCancel(id, t) => w.(db := Cancel(w.db, id, t).db)
    case DoAcquire(owner, seconds, t) => w.(db := Acquire(w.db, owner, seconds, t).db)
    case DoRenew(owner, epoch, seconds, t) => w.(db := Renew(w.db, owner, epoch, seconds, t).db)
    case LateAcquire(owner, seconds, t) => w.(db := TakeLease(w.db, owner, seconds, t))
    case LateRenew(owner, seconds, t) => w.(db := ExtendLease(w.db, owner, seconds, t))
    case DoRelease(owner) => w.(db := Release(w.db, owner))
    case DoCutover(engine, t) => w.(db := Cutover(w.db, engine, t).db)
    case DoClaim(owner, epoch, t, at, fin, token) => ClaimStep(w, owner, epoch, t, at, fin, token)
    case DoFail(c, text, t, t1) => w.(db := Fail(w.db, c, text, t, t1).db)
    case DoPublish(c, manifest, t, t1) => w.(db := Publish(w.db, c, manifest, t, t1).db)
    case MoveHead => w.(db := AdvanceHead(w.db))
    case BeginTenure(id) => w.(used := w.used + {id})
    case EndTenure(owner) => w.(retired := w.retired + {owner})
    case LegacyAcquire(name, seconds, t) => w.(db := AcquireLegacy(w.db, name, seconds, t))
    case LateLegacyAcquire(name, seconds, t) => w.(db := TakeLease(w.db, LegacyWorker(name), seconds, t))
    case LegacyRenew(name, seconds, t) => w.(db := ExtendLease(w.db, LegacyWorker(name), seconds, t))
    case LegacyRelease(name) => w.(db := Release(w.db, LegacyWorker(name)))
    case LegacyQueue(active) => w.(db := w.db.(legacyActive := active))
  }

  const EmptyDb := Db(false, 0, None, 0, LegacyEngine, 0, map[], map[], map[], 0)
  const Start0 := World(EmptyDb, {}, map[], map[], {})

  /** The world after a run, and whether every step of the run was allowed. */
  ghost function After(w: World, run: seq<Event>): World
    decreases |run|
  {
    if run == [] then w else After(Step(w, run[0]), run[1..])
  }

  ghost predicate Permitted(w: World, run: seq<Event>)
    decreases |run|
  {
    run == [] || (Allowed(w, run[0]) && Permitted(Step(w, run[0]), run[1..]))
  }

  ghost predicate Reachable(w: World) {
    exists run: seq<Event> :: Permitted(Start0, run) && After(Start0, run) == w
  }
}
