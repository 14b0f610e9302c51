// The tables say what the writes of the run that took effect said last, column by column.
module QueueTables {
  import opened Common
  import opened AppErrors
  import opened Ports
  import opened Jobs
  import opened Queue
  import opened QueueConservation
  import opened QueueInvariant
  import opened QueueSteps
  import opened QueueRequests

  datatype Write =
    | NewRow(j: JobId)
    | SetState(j: JobId, state: JobStatus)
    | SetFlag(j: JobId)
    | AddError(j: JobId, e: ErrorCode)
    | SetLink(mac: string, host: string)
    | ReplaceHosts(hosts: set<HostRow>)

  // ---- The write a step makes ----

  function FailWrite(j: JobId, job: Job, f: FailPc): Option<Write> {
    match f
    case WriteFailedState => Some(SetState(j, Failed))
    case WriteFailedFlag => Some(SetFlag(j))
    case SaveError(k) => if k < |job.errors| then Some(AddError(j, job.errors[k])) else None
    case Requeue => None
  }

  function RoutineWrite(j: JobId, job: Job, pc: RoutinePc): Option<Write> {
    match pc
    case WritePending => Some(SetState(j, Pending))
    case Erring(f) => FailWrite(j, job, f)
    case _ => None
  }

  function WorkWrite(j: JobId, job: Job, pc: WorkPc): Option<Write> {
    match pc
    case WriteBlocked(_) => Some(SetState(j, Blocked))
    case LinkHost(row) => Some(SetLink(job.port.mac, row.id))
    case WriteDone => Some(SetState(j, Done))
    case Failing(f) => FailWrite(j, job, f)
    case _ => None
  }

  function IfApplied(w: Option<Write>, a: Answer): Option<Write> {
    if a.Wrote? && a.reply.Applied() then w else None
  }

  /** The write that a step of a worker at `pc` makes with effect. The upsert may replace host rows
      even when it fails. */
  function WorkTook(j: JobId, job: Job, pc: WorkPc, a: Answer): Option<Write> {
    if pc.UpsertHost? && a.Upserted? then Some(ReplaceHosts(a.hosts)) else IfApplied(WorkWrite(j, job, pc), a)
  }

  /** The write that the step makes and that takes effect. */
  function Took(s: State, a: Action): Option<Write> {
    match a
    case Insert(_, reply) => if reply.Applied() then Some(NewRow(|s.jobs|)) else None
    case Local(RoutineAgent(r), ans) =>
      if r < |s.routines| && s.routines[r].job < |s.jobs| then
        IfApplied(RoutineWrite(s.routines[r].job, s.jobs[s.routines[r].job], s.routines[r].pc), ans)
      else None
    case Local(WorkerAgent(w), ans) =>
      if w < |s.workers| && s.workers[w].mode.Executing? && s.workers[w].mode.job < |s.jobs| then
        WorkTook(s.workers[w].mode.job, s.jobs[s.workers[w].mode.job], s.workers[w].mode.pc, ans)
      else None
    case _ => None
  }

  // ---- What a write does to each column ----

  function StateAfter(w: Option<Write>, j: JobId, before: Option<JobStatus>): Option<JobStatus> {
    match w
    case Some(NewRow(i)) => if i == j then Some(Created) else before
    case Some(SetState(i, state)) => if i == j then Some(state) else before
    case _ => before
  }

  function FlagAfter(w: Option<Write>, j: JobId, before: bool): bool {
    match w
    case Some(NewRow(i)) => before && i != j
    case Some(SetFlag(i)) => before || i == j
    case _ => before
  }

  function ErrorsAfter(w: Option<Write>, j: JobId, before: seq<ErrorCode>): seq<ErrorCode> {
    match w
    case Some(AddError(i, e)) => if i == j then before + [e] else before
    case _ => before
  }

  function LinkAfter(w: Option<Write>, mac: string, before: Option<string>): Option<string> {
    match w
    case Some(SetLink(m, host)) => if m == mac then Some(host) else before
    case _ => before
  }

  function HostsAfter(w: Option<Write>, before: set<HostRow>): set<HostRow> {
    match w
    case Some(ReplaceHosts(hosts)) => hosts
    case _ => before
  }

  // ---- The columns ----

  function StateColumn(db: Db, j: JobId): Option<JobStatus> {
    if j in db.jobs then Some(db.jobs[j].state) else None
  }

  function FlagColumn(db: Db, j: JobId): bool {
    j in db.jobs && db.jobs[j].isFailed
  }

  function ErrorColumn(db: Db, j: JobId): seq<ErrorCode> {
    if j in db.errorRows then db.errorRows[j] else []
  }

  function LinkColumn(db: Db, mac: string): Option<string> {
    if mac in db.links then Some(db.links[mac]) else None
  }

  ghost predicate Reflects(before: Db, w: Option<Write>, after: Db) {
    && (forall j: JobId :: StateColumn(after, j) == StateAfter(w, j, StateColumn(before, j)))
    && (forall j: JobId :: FlagColumn(after, j) == FlagAfter(w, j, FlagColumn(before, j)))
    && (forall j: JobId :: ErrorColumn(after, j) == ErrorsAfter(w, j, ErrorColumn(before, j)))
    && (forall mac :: LinkColumn(after, mac) == LinkAfter(w, mac, LinkColumn(before, mac)))
    && after.hosts == HostsAfter(w, before.hosts)
  }

  // ---- Every step ----

  lemma NothingTook(db: Db)
    ensures Reflects(db, None, db)
  {
  }

  lemma FailStepTook(db: Db, j: JobId, job: Job, f: FailPc, r: Reply)
    requires !f.Requeue? && (f.SaveError? ==> f.k < |job.errors|) && j in db.jobs
    ensures var (db', _) := FailStep(db, j, job, f, r); Reflects(db, IfApplied(FailWrite(j, job, f), Wrote(r)), db')
  {
  }

  lemma StateWriteTook(db: Db, j: JobId, state: JobStatus, r: Reply)
    requires j in db.jobs
    ensures Reflects(db, IfApplied(Some(SetState(j, state)), Wrote(r)), db.WriteState(j, state, r))
  {
  }

  lemma LinkTook(db: Db, mac: string, host: string, r: Reply)
    ensures Reflects(db, IfApplied(Some(SetLink(mac, host)), Wrote(r)), db.Link(mac, host, r))
  {
  }

  lemma HostsTook(db: Db, hosts: set<HostRow>)
    ensures Reflects(db, Some(ReplaceHosts(hosts)), db.(hosts := hosts))
  {
  }

  lemma WorkStepTook(c: Config, db: Db, j: JobId, job: Job, pc: WorkPc, a: Answer)
    requires Possible(db, j, job, pc, a) && j in db.jobs
    ensures Reflects(db, WorkTook(j, job, pc, a), WorkStep(c.maxFails, c.rules, db, j, job, pc, a).db)
  {
    hide Reflects, FailStep, FailWith, Attempt, Answers, Db.WriteState, Db.Link;
    NothingTook(db);
    match pc
    case UpsertHost => HostsTook(db, a.hosts);
    case WriteBlocked(_) => StateWriteTook(db, j, Blocked, a.reply);
    case LinkHost(row) => LinkTook(db, job.port.mac, row.id, a.reply);
    case WriteDone => StateWriteTook(db, j, Done, a.reply);
    case Failing(f) => FailStepTook(db, j, job, f, a.reply);
    case _ =>
  }

  lemma RoutineStepTook(c: Config, s: State, r: nat, a: Answer)
    requires RoutineAsks(s, r, a) && s.routines[r].job in s.db.jobs
    ensures Reflects(s.db, Took(s, Local(RoutineAgent(r), a)), RoutineLocal(c, s, r, a).db)
  {
    hide Reflects, FailStep, Db.WriteState;
    var j, pc := s.routines[r].job, s.routines[r].pc;
    NothingTook(s.db);
    match pc
    case WritePending => StateWriteTook(s.db, j, Pending, a.reply);
    case Erring(f) => FailStepTook(s.db, j, s.jobs[j], f, a.reply);
    case _ =>
  }

  lemma InsertTook(s: State, h: nat, reply: Reply)
    requires CanInsert(s, h) && |s.jobs| !in s.db.jobs
    ensures Reflects(s.db, Took(s, Insert(h, reply)), DoInsert(s, h, reply).db)
  {
  }

  /** A job that a goroutine or a worker holds has its row. */
  lemma HeldHasRow(c: Config, s: State, p: Place, j: JobId)
    requires Inv(c, s) && Inserted(s) && Holds(s, p, j) && !p.IsDropped?
    ensures j < |s.jobs| && j in s.db.jobs
  {
    if j in s.dropped {
      AtMostOnePlace(s, p, IsDropped, j);
    }
  }

  lemma NewJobHasNoRow(c: Config, s: State)
    requires Inv(c, s)
    ensures |s.jobs| !in s.db.jobs
  {
  }

  lemma StepTook(c: Config, s: State, a: Action)
    requires Inv(c, s) && Inserted(s) && Enabled(c, s, a)
    ensures Reflects(s.db, Took(s, a), Next(c, s, a).db)
  {
    hide Enabled, Next, Inv, Inserted, Reflects, WorkStep, WorkerLocal, RoutineLocal, DoInsert;
    StepShape(c, s, a);
    if a.Insert? {
      NewJobHasNoRow(c, s);
      InsertTook(s, a.h, a.reply);
    } else if a.Local? {
      LocalSteps(c, s, a);
      if a.agent.WorkerAgent? {
        var w := a.agent.i;
        var j := s.workers[w].mode.job;
        HeldHasRow(c, s, InWorker(w), j);
        WorkerLocalShape(c, s, w, a.answer);
        WorkStepTook(c, s.db, j, s.jobs[j], s.workers[w].mode.pc, a.answer);
      } else {
        HeldHasRow(c, s, InRoutine(a.agent.i), s.routines[a.agent.i].job);
        RoutineStepTook(c, s, a.agent.i, a.answer);
      }
    } else {
      NothingTook(s.db);
    }
  }

  // ---- Whole runs ----

  ghost function LastState(run: Run, n: nat, j: JobId): Option<JobStatus>
    requires HasSteps(run, n)
  {
    if n == 0 then None else StateAfter(Took(run.states[n - 1], run.actions[n - 1]), j, LastState(run, n - 1, j))
  }

  ghost function WasFlagged(run: Run, n: nat, j: JobId): bool
    requires HasSteps(run, n)
  {
    if n == 0 then false else FlagAfter(Took(run.states[n - 1], run.actions[n - 1]), j, WasFlagged(run, n - 1, j))
  }

  ghost function AddedErrors(run: Run, n: nat, j: JobId): seq<ErrorCode>
    requires HasSteps(run, n)
  {
    if n == 0 then [] else ErrorsAfter(Took(run.states[n - 1], run.actions[n - 1]), j, AddedErrors(run, n - 1, j))
  }

  ghost function LastLink(run: Run, n: nat, mac: string): Option<string>
    requires HasSteps(run, n)
  {
    if n == 0 then None else LinkAfter(Took(run.states[n - 1], run.actions[n - 1]), mac, LastLink(run, n - 1, mac))
  }

  ghost function LastHosts(run: Run, n: nat): set<HostRow>
    requires HasSteps(run, n)
  {
    if n == 0 then {} else HostsAfter(Took(run.states[n - 1], run.actions[n - 1]), LastHosts(run, n - 1))
  }

  ghost predicate TablesSay(run: Run, n: nat)
    requires HasSteps(run, n)
  {
    var db := run.states[n].db;
    && (forall j: JobId :: StateColumn(db, j) == LastState(run, n, j))
    && (forall j: JobId :: FlagColumn(db, j) == WasFlagged(run, n, j))
    && (forall j: JobId :: ErrorColumn(db, j) == AddedErrors(run, n, j))
    && (forall mac :: LinkColumn(db, mac) == LastLink(run, n, mac))
    && db.hosts == LastHosts(run, n)
  }

  /** Over every run each column of each table says what the writes that took effect said last: a
      job's state, whether it was flagged, its errors in the order of their insertion, the host a
      MAC address is linked to, and the hosts. */
  lemma {:induction false} TablesAreTheWrites(c: Config, run: Run, n: nat)
    requires IsRun(c, run) && n < |run.states|
    ensures TablesSay(run, n)
  {
    hide Enabled, Next, Inv, Inserted, Took;
    if n > 0 {
      TablesAreTheWrites(c, run, n - 1);
      RunKeepsInv(c, run, n - 1);
      RunInserted(c, run, n - 1);
      RunStep(c, run, n - 1);
      StepTook(c, run.states[n - 1], run.actions[n - 1]);
    }
  }
}
