// One job: its record, its row in the database, and the program a goroutine runs
// over it, one call to the outside at a time. A step is the answer to one call
// together with the writes to the job that surround that call: only the goroutine
// that holds a job reads or writes its fields, so nothing can come in between.
module Jobs {
  import opened Common
  import opened AppErrors
  import opened Rsview
  import opened Ports

  type JobId = nat
  type RequestId = nat

  datatype JobAction = ServerPing | HostCreate | RsviewParse | IcqSendMess

  datatype JobStatus = Created | Pending | Failed | Blocked | Done

  datatype Job = Job(
    requestedBy: RequestId,
    action: JobAction,
    state: JobStatus,
    isFailed: bool,
    errors: seq<ErrorCode>,
    port: Port)

  // ---- The database ----

  datatype JobRow = JobRow(requestedBy: RequestId, action: JobAction, state: JobStatus, isFailed: bool)

  /** `createdBy` is the job that wrote the row, if one did. */
  datatype HostRow = HostRow(id: string, hostname: string, createdBy: Option<JobId>)

  datatype Db = Db(
    jobs: map<JobId, JobRow>,
    hosts: set<HostRow>,
    links: map<string, string>,
    errorRows: map<JobId, seq<ErrorCode>>)
  {
    /** The rows of the errors table that name job `j`. */
    function Saved(j: JobId): seq<ErrorCode> {
      if j in errorRows then errorRows[j] else []
    }

    function InsertJob(j: JobId, job: Job, r: Reply): Db {
      if r.Applied() then this.(jobs := jobs[j := JobRow(job.requestedBy, job.action, Created, false)]) else this
    }

    function WriteState(j: JobId, state: JobStatus, r: Reply): Db {
      if r.Applied() && j in jobs then this.(jobs := jobs[j := jobs[j].(state := state)]) else this
    }

    function WriteIsFailed(j: JobId, r: Reply): Db {
      if r.Applied() && j in jobs then this.(jobs := jobs[j := jobs[j].(isFailed := true)]) else this
    }

    function SaveError(j: JobId, e: ErrorCode, r: Reply): Db {
      if r.Applied() then this.(errorRows := errorRows[j := Saved(j) + [e]]) else this
    }

    function Link(mac: string, host: string, r: Reply): Db {
      if r.Applied() then this.(links := links[mac := host]) else this
    }
  }

  // ---- Failing ----

  /** Where a goroutine is inside appendAppError. */
  datatype FailPc = WriteFailedState | WriteFailedFlag | SaveError(k: nat) | Requeue

  /** The error is recorded, and the job is marked failed when it is the last one allowed. */
  function AppendAppError(maxFails: int, job: Job, e: ErrorCode): Job {
    var j := job.(errors := job.errors + [e]);
    if |j.errors| == maxFails then j.(isFailed := true, state := Failed) else j
  }

  function AfterAppend(maxFails: int, job: Job): FailPc {
    if |job.errors| == maxFails then WriteFailedState else Requeue
  }

  /** One write on the way of a failed job out of the system. */
  function FailStep(db: Db, j: JobId, job: Job, pc: FailPc, r: Reply): (Db, Option<FailPc>)
    requires !pc.Requeue?
    requires pc.SaveError? ==> pc.k < |job.errors|
  {
    match pc
    case WriteFailedState =>
      (db.WriteState(j, Failed, r), Some(if r.Acked() then WriteFailedFlag else SaveError(0)))
    case WriteFailedFlag =>
      (db.WriteIsFailed(j, r), Some(SaveError(0)))
    case SaveError(k) =>
      (db.SaveError(j, job.errors[k], r), if k + 1 < |job.errors| then Some(SaveError(k + 1)) else None)
  }

  lemma FailStepShape(db: Db, j: JobId, job: Job, pc: FailPc, r: Reply)
    requires !pc.Requeue?
    requires pc.SaveError? ==> pc.k < |job.errors|
    ensures var (db', _) := FailStep(db, j, job, pc, r);
            db'.hosts == db.hosts && db'.links == db.links && db'.jobs.Keys == db.jobs.Keys
  {
  }

  // ---- The worker's program ----

  datatype WorkPc =
    | ResolveIpmi
    | UpsertHost
    | ParsePort
    | FindHostJob
    | WriteBlocked(hostJob: JobId)
    | FindHost(hostJob: JobId)
    | LinkHost(host: HostRow)
    | WriteDone
    | UnknownAction
    | Failing(pc: FailPc)

  function FirstPc(action: JobAction): WorkPc {
    match action
    case HostCreate => ResolveIpmi
    case RsviewParse => ParsePort
    case _ => UnknownAction
  }

  datatype Found<+T> = QueryFailed | NoRows | OneRow(row: T) | ManyRows

  /** The outside's answer to the call a goroutine is making. */
  datatype Answer =
    | Called(err: Option<ErrorCode>)
    | Upserted(hosts: set<HostRow>, err: Option<ErrorCode>)
    | Fetched(page: Result<Page, ErrorCode>, update: Reply)
    | JobRows(found: Found<JobId>)
    | HostRows(hostFound: Found<HostRow>)
    | Wrote(reply: Reply)
    | Nothing

  ghost predicate IsHostJobRow(db: Db, req: RequestId, h: JobId) {
    h in db.jobs && db.jobs[h].requestedBy == req && db.jobs[h].action == HostCreate
  }

  ghost predicate IsHostOf(db: Db, h: JobId, row: HostRow) {
    row in db.hosts && row.createdBy == Some(h)
  }

  ghost function HostJobRows(db: Db, req: RequestId): JobId -> bool {
    (h: JobId) => IsHostJobRow(db, req, h)
  }

  ghost function HostsOf(db: Db, h: JobId): HostRow -> bool {
    row => IsHostOf(db, h, row)
  }

  /** What SELECT ... LIMIT 2 may answer when `matches` holds of the rows asked for. */
  ghost predicate Answers<T(!new)>(matches: T -> bool, found: Found<T>) {
    match found
    case QueryFailed => true
    case NoRows => forall x :: !matches(x)
    case OneRow(row) => matches(row) && forall x :: matches(x) ==> x == row
    case ManyRows => exists x, y :: matches(x) && matches(y) && x != y
  }

  ghost predicate Possible(db: Db, j: JobId, job: Job, pc: WorkPc, a: Answer) {
    match pc
    case ResolveIpmi => a.Called?
    case UpsertHost =>
      // Rows are only ever written under the job's own name, or under none.
      a.Upserted? && forall row <- a.hosts :: row in db.hosts || row.createdBy == None || row.createdBy == Some(j)
    case ParsePort => a.Fetched?
    case FindHostJob => a.JobRows? && Answers(HostJobRows(db, job.requestedBy), a.found)
    case WriteBlocked(_) => a.Wrote?
    case FindHost(h) => a.HostRows? && Answers(HostsOf(db, h), a.hostFound)
    case LinkHost(_) => a.Wrote?
    case WriteDone => a.Wrote?
    case UnknownAction => a.Nothing?
    case Failing(f) => !f.Requeue? && a.Wrote? && (f.SaveError? ==> f.k < |job.errors|)
  }

  /** `Crash` is a nil dereference, which takes the whole process down. */
  datatype WorkNext = Continue(pc: WorkPc) | Return | Crash

  datatype WorkResult = WorkResult(db: Db, job: Job, next: WorkNext)

  function FailWith(maxFails: int, db: Db, job: Job, e: ErrorCode): (r: WorkResult)
    ensures r.db == db && r.next.Continue? && r.next.pc.Failing? && !(r.next.pc.pc.SaveError?)
    ensures r.job.port == job.port && r.job.action == job.action && r.job.requestedBy == job.requestedBy
    ensures r.job.errors == job.errors + [e] && (r.job.state == job.state || r.job.state == Failed)
  {
    var failed := AppendAppError(maxFails, job, e);
    WorkResult(db, failed, Continue(Failing(AfterAppend(maxFails, failed))))
  }

  function ReadingOf(page: Result<Page, ErrorCode>, update: Reply): Reading {
    Reading(match page case Err(e) => Err(e) case Ok(p) => ParsePage(p), update)
  }

  /** One step of doJob. */
  ghost function WorkStep(maxFails: int, rules: AllowRules, db: Db, j: JobId, job: Job, pc: WorkPc, a: Answer): WorkResult
    requires Possible(db, j, job, pc, a)
  {
    match pc
    case ResolveIpmi =>
      if a.err.Some? then FailWith(maxFails, db, job, a.err.value)
      else WorkResult(db, job, Continue(UpsertHost))
    case UpsertHost =>
      var db' := db.(hosts := a.hosts);
      if a.err.Some? then FailWith(maxFails, db', job, a.err.value)
      else WorkResult(db', job, Continue(WriteDone))
    case ParsePort =>
      var attempted := Attempt(rules, job.port, ReadingOf(a.page, a.update));
      var job' := job.(port := attempted.port);
      if attempted.err.Some? then FailWith(maxFails, db, job', attempted.err.value)
      else WorkResult(db, job', Continue(FindHostJob))
    case FindHostJob =>
      (match a.found
       case OneRow(h) =>
         WorkResult(db, job, Continue(if db.jobs[h].state == Pending then WriteBlocked(h) else FindHost(h)))
       case NoRows => WorkResult(db, job, Crash)
       case _ => FailWith(maxFails, db, job, InternalSqlError))
    case WriteBlocked(h) =>
      WorkResult(db.WriteState(j, Blocked, a.reply), job.(state := Blocked), Continue(FindHost(h)))
    case FindHost(_) =>
      (match a.hostFound
       case OneRow(row) =>
         if row.hostname == job.port.lldpHost then WorkResult(db, job, Continue(LinkHost(row)))
         else FailWith(maxFails, db, job, RsviewLldpMismatch)
       case NoRows => FailWith(maxFails, db, job, HostsNotFound)
       case _ => FailWith(maxFails, db, job, InternalSqlError))
    case LinkHost(row) =>
      var db' := db.Link(job.port.mac, row.id, a.reply);
      if a.reply.Acked() then WorkResult(db', job, Continue(WriteDone))
      else FailWith(maxFails, db', job, InternalSqlError)
    case WriteDone =>
      WorkResult(db.WriteState(j, Done, a.reply), job.(state := Done), Return)
    case UnknownAction =>
      WorkResult(db, job, Return)
    case Failing(f) =>
      var (db', next) := FailStep(db, j, job, f, a.reply);
      WorkResult(db', job, if next.Some? then Continue(Failing(next.value)) else Return)
  }
}
