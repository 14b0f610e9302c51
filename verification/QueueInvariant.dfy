// What is known of a job at each place it can be: how many errors it has, whether it is
// failed, what the database says of it, and which host job it was matched with.
module QueueInvariant {
  import opened Common
  import opened AppErrors
  import opened Ports
  import opened Jobs
  import opened Sums
  import opened Queue
  import opened QueueConservation
  import opened QueueTokens

  // ---- Subsequences, for the errors a failed job managed to save ----

  ghost predicate Subsequence<T>(a: seq<T>, b: seq<T>)
    decreases |b|
  {
    a == [] || (b != [] && (Subsequence(a, b[..|b| - 1])
                            || (a[|a| - 1] == b[|b| - 1] && Subsequence(a[..|a| - 1], b[..|b| - 1]))))
  }

  lemma SubsequenceGrows<T>(a: seq<T>, b: seq<T>, x: T)
    requires Subsequence(a, b)
    ensures Subsequence(a, b + [x]) && Subsequence(a + [x], b + [x])
  {
    assert (b + [x])[..|b|] == b && (a + [x])[..|a|] == a;
  }

  lemma {:induction false} SubsequenceIsShorter<T>(a: seq<T>, b: seq<T>)
    requires Subsequence(a, b)
    ensures |a| <= |b| && forall x <- a :: x in b
    decreases |b|
  {
    if a != [] {
      var init := b[..|b| - 1];
      if Subsequence(a, init) {
        SubsequenceIsShorter(a, init);
      } else {
        SubsequenceIsShorter(a[..|a| - 1], init);
        assert a == a[..|a| - 1] + [a[|a| - 1]];
        assert b[|b| - 1] in b;
      }
    }
  }

  // ---- Phases ----

  datatype Phase =
    | Fresh(req: RequestId)
    | Idle
    | InDispatch(rpc: RoutinePc)
    | InWork(wpc: WorkPc)
    | Retired
    | Dropped

  function PhaseOf(s: State, p: Place, j: JobId): Phase
    requires Holds(s, p, j)
  {
    match p
    case InHandler(i) => Fresh(i)
    case InQueue => Idle
    case InRoutine(r) => InDispatch(s.routines[r].pc)
    case InInbox(_) => Idle
    case InWorker(w) => InWork(s.workers[w].mode.pc)
    case IsRetired => Retired
    case IsDropped => Dropped
  }

  /** A job that can still be retried: fewer errors than allowed, not failed, not done. */
  ghost predicate Live(c: Config, job: Job, db: Db, j: JobId) {
    && !job.isFailed
    && job.state != Failed
    && job.state != Done
    && (c.maxFails >= 1 ==> |job.errors| < c.maxFails)
    && db.Saved(j) == []
  }

  ghost predicate Untouched(job: Job) {
    job.state == Created && job.errors == []
  }

  ghost predicate HasFailed(c: Config, job: Job) {
    job.isFailed && job.state == Failed && c.maxFails >= 1 && |job.errors| == c.maxFails
  }

  ghost predicate FailPcOk(c: Config, job: Job, db: Db, j: JobId, f: FailPc) {
    match f
    case Requeue => Live(c, job, db, j) && job.errors != []
    case WriteFailedState => HasFailed(c, job) && db.Saved(j) == []
    case WriteFailedFlag => HasFailed(c, job) && db.Saved(j) == [] && (j in db.jobs ==> db.jobs[j].state == Failed)
    case SaveError(k) => HasFailed(c, job) && k < |job.errors| && Subsequence(db.Saved(j), job.errors[..k])
  }

  ghost predicate IsReadPort(job: Job) {
    job.action == RsviewParse && FullyRead(job.port)
  }

  ghost predicate WorkPcOk(c: Config, job: Job, db: Db, j: JobId, pc: WorkPc) {
    match pc
    case ResolveIpmi => Live(c, job, db, j) && job.action == HostCreate
    case UpsertHost => Live(c, job, db, j) && job.action == HostCreate
    case ParsePort => Live(c, job, db, j) && job.action == RsviewParse
    case FindHostJob => Live(c, job, db, j) && IsReadPort(job)
    case WriteBlocked(h) => Live(c, job, db, j) && IsReadPort(job) && IsHostJobRow(db, job.requestedBy, h)
    case FindHost(h) => Live(c, job, db, j) && IsReadPort(job) && IsHostJobRow(db, job.requestedBy, h)
    case LinkHost(row) =>
      && Live(c, job, db, j) && IsReadPort(job)
      && row.hostname == job.port.lldpHost
      && exists h: JobId :: IsHostJobRow(db, job.requestedBy, h) && row.createdBy == Some(h)
    case WriteDone => Live(c, job, db, j) && (job.action == HostCreate || IsReadPort(job))
    case UnknownAction => Live(c, job, db, j) && (job.action == ServerPing || job.action == IcqSendMess)
    case Failing(f) => FailPcOk(c, job, db, j, f)
  }

  /** How a job may leave the system: done, failed with its errors saved as far as the
      database took them, or never meant to be worked on. */
  ghost predicate RetiredOk(c: Config, job: Job, db: Db, j: JobId) {
    || (HasFailed(c, job) && Subsequence(db.Saved(j), job.errors))
    || (&& job.state == Done && !job.isFailed && db.Saved(j) == []
        && (c.maxFails >= 1 ==> |job.errors| < c.maxFails)
        && (job.action == HostCreate || IsReadPort(job)))
    || (Live(c, job, db, j) && (job.action == ServerPing || job.action == IcqSendMess))
  }

  ghost predicate JobOk(c: Config, job: Job, db: Db, j: JobId, phase: Phase) {
    match phase
    case Fresh(req) => Live(c, job, db, j) && Untouched(job) && job.requestedBy == req
    case Idle => Live(c, job, db, j)
    case InDispatch(pc) => if pc.Erring? then FailPcOk(c, job, db, j, pc.f) else Live(c, job, db, j)
    case InWork(pc) => WorkPcOk(c, job, db, j, pc)
    case Retired => RetiredOk(c, job, db, j)
    case Dropped => Live(c, job, db, j) && Untouched(job)
  }

  ghost predicate RowOk(job: Job, row: JobRow) {
    && row.requestedBy == job.requestedBy
    && row.action == job.action
    && (row.isFailed ==> row.state == Failed)
    && (row.state == Failed ==> job.state == Failed)
    && (row.state == Done ==> job.state == Done)
  }

  // ---- Requests ----

  ghost predicate AllPorts(specs: seq<JobSpec>) {
    forall spec <- specs :: spec.PortJob?
  }

  ghost predicate HasHostRow(db: Db, req: RequestId) {
    exists h :: IsHostJobRow(db, req, h)
  }

  ghost predicate HandlerOk(db: Db, req: RequestId, hd: Handler) {
    || hd.todo == []
    || (hd.todo[0] == HostJob && AllPorts(hd.todo[1..]) && hd.ready == [] && !HasHostRow(db, req))
    || (AllPorts(hd.todo) && HasHostRow(db, req))
  }

  /** Of every request at most one host job was ever inserted, and no port job before it. */
  ghost predicate RequestsOk(s: State) {
    && (forall i :: 0 <= i < |s.handlers| ==> HandlerOk(s.db, i, s.handlers[i]))
    && (forall r, g, h :: IsHostJobRow(s.db, r, g) && IsHostJobRow(s.db, r, h) ==> g == h)
    && (forall j :: 0 <= j < |s.jobs| && s.jobs[j].action == RsviewParse ==> HasHostRow(s.db, s.jobs[j].requestedBy))
    && (forall h <- s.db.jobs :: s.db.jobs[h].requestedBy < |s.handlers|)
  }

  ghost predicate RowsOk(s: State) {
    && (forall j <- s.db.jobs :: j < |s.jobs| && RowOk(s.jobs[j], s.db.jobs[j]))
    && (forall j <- s.db.errorRows :: j < |s.jobs|)
  }

  /** A host row written under a job's name was written by a host job. */
  ghost predicate HostsOk(s: State) {
    forall row <- s.db.hosts :: row.createdBy.Some? ==>
      row.createdBy.value < |s.jobs| && s.jobs[row.createdBy.value].action == HostCreate
  }

  ghost predicate PlacesOk(c: Config, s: State) {
    forall p, j: JobId :: Holds(s, p, j) ==> j < |s.jobs| && JobOk(c, s.jobs[j], s.db, j, PhaseOf(s, p, j))
  }

  ghost predicate Inv(c: Config, s: State) {
    && !s.crashed
    && Conserved(s)
    && Balanced(s)
    && TokensNameWorkers(c, s)
    && PlacesOk(c, s)
    && RowsOk(s)
    && RequestsOk(s)
    && HostsOk(s)
  }

  // ---- Frames ----

  /** The database changed only in what concerns job `j0`, and no job row lost its identity. */
  ghost predicate DbFrame(before: Db, after: Db, j0: JobId) {
    && (forall j :: j in before.jobs ==> j in after.jobs && after.jobs[j].requestedBy == before.jobs[j].requestedBy
                                         && after.jobs[j].action == before.jobs[j].action)
    && (forall j :: j in after.jobs && j != j0 ==> j in before.jobs && after.jobs[j] == before.jobs[j])
    && (forall j :: j != j0 ==> after.Saved(j) == before.Saved(j))
    && (forall j :: j in after.errorRows ==> j in before.errorRows || j == j0)
  }

  lemma JobOkFrame(c: Config, job: Job, before: Db, after: Db, j0: JobId, j: JobId, phase: Phase)
    requires DbFrame(before, after, j0) && j != j0
    requires JobOk(c, job, before, j, phase)
    ensures JobOk(c, job, after, j, phase)
  {
    if phase.InWork? && phase.wpc.LinkHost? {
      var h: JobId :| IsHostJobRow(before, job.requestedBy, h) && phase.wpc.host.createdBy == Some(h);
      assert IsHostJobRow(after, job.requestedBy, h);
    }
  }

  // ---- A worker's step ----

  /** What a step of the worker holding job `j` owes to the rest of the system. */
  ghost predicate StepOk(c: Config, db: Db, j: JobId, job: Job, r: WorkResult) {
    && WorkNextOk(c, j, r)
    && DbFrame(db, r.db, j)
    && (j in r.db.jobs ==> j in db.jobs && RowOk(r.job, r.db.jobs[j]))
    && r.job.requestedBy == job.requestedBy
    && r.job.action == job.action
  }

  ghost predicate WorkNextOk(c: Config, j: JobId, r: WorkResult) {
    match r.next
    case Continue(pc) => WorkPcOk(c, r.job, r.db, j, pc)
    case Return => RetiredOk(c, r.job, r.db, j)
    case Crash => false
  }

  lemma FailWithOk(c: Config, db: Db, db': Db, j: JobId, job: Job, job': Job, e: ErrorCode)
    requires Live(c, job, db, j) && (j in db.jobs ==> RowOk(job, db.jobs[j]))
    requires job' == job.(port := job'.port)
    requires db' == db.(hosts := db'.hosts, links := db'.links)
    ensures StepOk(c, db, j, job, FailWith(c.maxFails, db', job', e))
  {
  }

  /** What one write of a failed job owes to the rest of the system. */
  ghost predicate FailStepGood(c: Config, db: Db, j: JobId, job: Job, db': Db, next: Option<FailPc>) {
    && DbFrame(db, db', j)
    && (if next.Some? then FailPcOk(c, job, db', j, next.value) else RetiredOk(c, job, db', j))
    && (j in db'.jobs ==> j in db.jobs && RowOk(job, db'.jobs[j]))
    && db'.hosts == db.hosts
  }

  lemma WriteFailedOk(c: Config, db: Db, j: JobId, job: Job, f: FailPc, r: Reply)
    requires FailPcOk(c, job, db, j, f) && (f.WriteFailedState? || f.WriteFailedFlag?)
    requires j in db.jobs ==> RowOk(job, db.jobs[j])
    ensures var (db', next) := FailStep(db, j, job, f, r); FailStepGood(c, db, j, job, db', next)
  {
    assert job.errors[..0] == [];
  }

  lemma SaveErrorOk(c: Config, db: Db, j: JobId, job: Job, k: nat, r: Reply)
    requires FailPcOk(c, job, db, j, SaveError(k))
    requires j in db.jobs ==> RowOk(job, db.jobs[j])
    ensures var (db', next) := FailStep(db, j, job, SaveError(k), r); FailStepGood(c, db, j, job, db', next)
  {
    hide Subsequence, HasFailed, Live, RowOk, IsReadPort;
    assert job.errors[..k + 1] == job.errors[..k] + [job.errors[k]];
    SubsequenceGrows(db.Saved(j), job.errors[..k], job.errors[k]);
    if k + 1 == |job.errors| {
      assert job.errors[..k + 1] == job.errors;
    }
  }

  lemma FailStepOk(c: Config, db: Db, j: JobId, job: Job, f: FailPc, r: Reply)
    requires FailPcOk(c, job, db, j, f) && !f.Requeue?
    requires j in db.jobs ==> RowOk(job, db.jobs[j])
    ensures var (db', next) := FailStep(db, j, job, f, r); FailStepGood(c, db, j, job, db', next)
  {
    if f.SaveError? {
      SaveErrorOk(c, db, j, job, f.k, r);
    } else {
      WriteFailedOk(c, db, j, job, f, r);
    }
  }

  ghost predicate CanStep(c: Config, db: Db, j: JobId, job: Job, pc: WorkPc, a: Answer) {
    && WorkPcOk(c, job, db, j, pc)
    && Possible(db, j, job, pc, a)
    && (j in db.jobs ==> RowOk(job, db.jobs[j]))
    && (pc == FindHostJob ==> HasHostRow(db, job.requestedBy))
  }

  lemma HostStepOk(c: Config, db: Db, j: JobId, job: Job, pc: WorkPc, a: Answer)
    requires CanStep(c, db, j, job, pc, a) && (pc.ResolveIpmi? || pc.UpsertHost?)
    ensures StepOk(c, db, j, job, WorkStep(c.maxFails, c.rules, db, j, job, pc, a))
  {
    if a.err.Some? {
      FailWithOk(c, db, if pc.ResolveIpmi? then db else db.(hosts := a.hosts), j, job, job, a.err.value);
    }
  }

  lemma ParseStepOk(c: Config, db: Db, j: JobId, job: Job, a: Answer)
    requires CanStep(c, db, j, job, ParsePort, a)
    ensures StepOk(c, db, j, job, WorkStep(c.maxFails, c.rules, db, j, job, ParsePort, a))
  {
    var reading := ReadingOf(a.page, a.update);
    var attempted := Attempt(c.rules, job.port, reading);
    if attempted.err == None {
      SuccessReadsEverything(c.rules, job.port, reading);
    } else {
      FailWithOk(c, db, db, j, job, job.(port := attempted.port), attempted.err.value);
    }
  }

  lemma LookupStepOk(c: Config, db: Db, j: JobId, job: Job, pc: WorkPc, a: Answer)
    requires CanStep(c, db, j, job, pc, a) && (pc.FindHostJob? || pc.FindHost?)
    ensures StepOk(c, db, j, job, WorkStep(c.maxFails, c.rules, db, j, job, pc, a))
  {
    if pc.FindHostJob? {
      var h: JobId :| IsHostJobRow(db, job.requestedBy, h);
      assert HostJobRows(db, job.requestedBy)(h);
    }
    FailWithOk(c, db, db, j, job, job, InternalSqlError);
    FailWithOk(c, db, db, j, job, job, HostsNotFound);
    FailWithOk(c, db, db, j, job, job, RsviewLldpMismatch);
  }

  lemma LinkStepOk(c: Config, db: Db, j: JobId, job: Job, pc: WorkPc, a: Answer)
    requires CanStep(c, db, j, job, pc, a) && pc.LinkHost?
    ensures StepOk(c, db, j, job, WorkStep(c.maxFails, c.rules, db, j, job, pc, a))
  {
    FailWithOk(c, db, db.Link(job.port.mac, pc.host.id, a.reply), j, job, job, InternalSqlError);
  }

  lemma BlockedStepOk(c: Config, db: Db, j: JobId, job: Job, h: JobId, a: Answer)
    requires CanStep(c, db, j, job, WriteBlocked(h), a)
    ensures StepOk(c, db, j, job, WorkStep(c.maxFails, c.rules, db, j, job, WriteBlocked(h), a))
  {
    hide Subsequence, FullyRead;
  }

  lemma DoneStepOk(c: Config, db: Db, j: JobId, job: Job, a: Answer)
    requires CanStep(c, db, j, job, WriteDone, a)
    ensures StepOk(c, db, j, job, WorkStep(c.maxFails, c.rules, db, j, job, WriteDone, a))
  {
    hide Subsequence, FullyRead;
  }

  lemma UnknownStepOk(c: Config, db: Db, j: JobId, job: Job, a: Answer)
    requires CanStep(c, db, j, job, UnknownAction, a)
    ensures StepOk(c, db, j, job, WorkStep(c.maxFails, c.rules, db, j, job, UnknownAction, a))
  {
  }

  /** Every step of a worker leads to a phase whose facts hold, and never to a crash. */
  lemma WorkStepOk(c: Config, db: Db, j: JobId, job: Job, pc: WorkPc, a: Answer)
    requires CanStep(c, db, j, job, pc, a)
    ensures StepOk(c, db, j, job, WorkStep(c.maxFails, c.rules, db, j, job, pc, a))
  {
    match pc
    case ResolveIpmi => HostStepOk(c, db, j, job, pc, a);
    case UpsertHost => HostStepOk(c, db, j, job, pc, a);
    case ParsePort => ParseStepOk(c, db, j, job, a);
    case FindHostJob => LookupStepOk(c, db, j, job, pc, a);
    case FindHost(_) => LookupStepOk(c, db, j, job, pc, a);
    case LinkHost(_) => LinkStepOk(c, db, j, job, pc, a);
    case Failing(f) => FailStepOk(c, db, j, job, f, a.reply);
    case UnknownAction => UnknownStepOk(c, db, j, job, a);
    case WriteBlocked(h) => BlockedStepOk(c, db, j, job, h, a);
    case WriteDone => DoneStepOk(c, db, j, job, a);
  }
}
