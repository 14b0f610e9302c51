// The job object, its methods, and a worker's doJob, carried out without interruption.
// Each does what the steps of module Jobs do one after the other, so that the transition
// system, which interleaves those steps, interleaves exactly these methods.
module JobObjects {
  import opened Common
  import opened AppErrors
  import opened Rsview
  import opened Ports
  import opened Jobs

  /** The MySQL tables. */
  class Database {
    var rows: Db

    constructor (rows: Db)
      ensures this.rows == rows
    {
      this.rows := rows;
    }
  }

  /** The job channel, as seen by one sender. */
  class JobChannel {
    var sent: seq<JobId>

    constructor ()
      ensures sent == []
    {
      sent := [];
    }

    method Send(j: JobId)
      modifies this
      ensures sent == old(sent) + [j]
    {
      sent := sent + [j];
    }
  }

  // ---- Steps run to completion ----

  function ReplyTo(a: Answer): Reply {
    if a.Wrote? then a.reply else Rejected
  }

  /** All writes of appendAppError for a job that has reached the limit. */
  function FailAll(db: Db, j: JobId, job: Job, pc: FailPc, replies: FailPc -> Reply): Db
    requires !pc.Requeue?
    requires pc.SaveError? ==> pc.k < |job.errors|
    requires job.errors != []
    decreases if pc.WriteFailedState? then 2 else if pc.WriteFailedFlag? then 1 else 0,
              if pc.SaveError? then |job.errors| - pc.k else 0
  {
    var (db', next) := FailStep(db, j, job, pc, replies(pc));
    if next.Some? then FailAll(db', j, job, next.value, replies) else db'
  }

  /** The writes of setFailed, and then the errors one by one. */
  lemma FailAllUnfold(db: Db, j: JobId, job: Job, replies: FailPc -> Reply)
    requires job.errors != []
    ensures var db1 := db.WriteState(j, Failed, replies(WriteFailedState));
            FailAll(db, j, job, WriteFailedState, replies) ==
            FailAll(if replies(WriteFailedState).Acked() then db1.WriteIsFailed(j, replies(WriteFailedFlag)) else db1,
                    j, job, SaveError(0), replies)
  {
    var db1 := db.WriteState(j, Failed, replies(WriteFailedState));
    assert replies(WriteFailedState).Acked() ==>
        FailAll(db, j, job, WriteFailedState, replies) == FailAll(db1, j, job, WriteFailedFlag, replies);
  }

  lemma SaveOne(db: Db, j: JobId, job: Job, k: nat, replies: FailPc -> Reply)
    requires k < |job.errors|
    ensures var db' := db.SaveError(j, job.errors[k], replies(SaveError(k)));
            FailAll(db, j, job, SaveError(k), replies) ==
            if k + 1 < |job.errors| then FailAll(db', j, job, SaveError(k + 1), replies) else db'
  {
  }

  // ---- What those writes leave in the tables ----

  /** The errors up to the `k`-th were dealt with, and the rest of them will lead to `end`. */
  ghost predicate Saving(end: Db, db: Db, j: JobId, job: Job, k: nat, replies: FailPc -> Reply) {
    && job.errors != []
    && k <= |job.errors|
    && end == if k < |job.errors| then FailAll(db, j, job, SaveError(k), replies) else db
  }

  lemma SavingStarts(db: Db, db': Db, j: JobId, job: Job, replies: FailPc -> Reply)
    requires job.errors != []
    requires var db1 := db.WriteState(j, Failed, replies(WriteFailedState));
             db' == if replies(WriteFailedState).Acked() then db1.WriteIsFailed(j, replies(WriteFailedFlag)) else db1
    ensures Saving(FailAll(db, j, job, WriteFailedState, replies), db', j, job, 0, replies)
  {
    FailAllUnfold(db, j, job, replies);
  }

  lemma SavingGoesOn(end: Db, db: Db, j: JobId, job: Job, k: nat, replies: FailPc -> Reply)
    requires Saving(end, db, j, job, k, replies) && k < |job.errors|
    ensures Saving(end, db.SaveError(j, job.errors[k], replies(SaveError(k))), j, job, k + 1, replies)
  {
    SaveOne(db, j, job, k, replies);
  }

  lemma SavingEnds(end: Db, db: Db, j: JobId, job: Job, replies: FailPc -> Reply)
    requires Saving(end, db, j, job, |job.errors|, replies)
    ensures end == db
  {
  }

  /** Nothing changed but the state and the flag of one row. */
  ghost predicate OnlyRow(before: Db, after: Db, id: JobId) {
    && after.hosts == before.hosts && after.links == before.links
    && after.jobs.Keys == before.jobs.Keys
    && (forall k <- before.jobs :: k != id ==> after.jobs[k] == before.jobs[k])
    && (id in before.jobs ==> after.jobs[id].requestedBy == before.jobs[id].requestedBy
                              && after.jobs[id].action == before.jobs[id].action)
  }

  /** The row of the job, if it has one, says this of its state and its flag. */
  ghost predicate RowSays(db: Db, id: JobId, state: JobStatus, isFailed: bool) {
    id in db.jobs ==> db.jobs[id].state == state && db.jobs[id].isFailed == isFailed
  }

  /** The rows of the errors table are the old ones and, for the job, these further ones. */
  ghost predicate ErrorsGrewBy(before: Db, after: Db, id: JobId, more: seq<ErrorCode>) {
    && (id in after.errorRows || more == [])
    && (id in after.errorRows ==> after.errorRows[id] == (if id in before.errorRows then before.errorRows[id] else []) + more)
    && (id in before.errorRows ==> id in after.errorRows)
    && forall k :: k != id ==> (k in after.errorRows <==> k in before.errorRows)
                               && (k in before.errorRows ==> after.errorRows[k] == before.errorRows[k])
  }

  /** The errors from the `k`-th on whose insertion was applied, in order. */
  function AppliedErrors(errors: seq<ErrorCode>, k: nat, replies: FailPc -> Reply): seq<ErrorCode>
    decreases |errors| - k
  {
    if k >= |errors| then []
    else (if replies(SaveError(k)).Applied() then [errors[k]] else []) + AppliedErrors(errors, k + 1, replies)
  }

  lemma {:induction false} AllApplied(errors: seq<ErrorCode>, k: nat, replies: FailPc -> Reply)
    requires k <= |errors|
    requires forall i :: k <= i < |errors| ==> replies(SaveError(i)).Applied()
    ensures AppliedErrors(errors, k, replies) == errors[k..]
    decreases |errors| - k
  {
    if k < |errors| {
      AllApplied(errors, k + 1, replies);
      assert errors[k..] == [errors[k]] + errors[k + 1..];
    }
  }

  lemma {:induction false} SavingGrows(db: Db, j: JobId, job: Job, k: nat, replies: FailPc -> Reply)
    requires k < |job.errors|
    ensures var after := FailAll(db, j, job, SaveError(k), replies);
            && after.jobs == db.jobs && after.hosts == db.hosts && after.links == db.links
            && ErrorsGrewBy(db, after, j, AppliedErrors(job.errors, k, replies))
    decreases |job.errors| - k
  {
    SaveOne(db, j, job, k, replies);
    var db1 := db.SaveError(j, job.errors[k], replies(SaveError(k)));
    if k + 1 < |job.errors| {
      SavingGrows(db1, j, job, k + 1, replies);
    }
  }

  /** The row of the job became failed as far as the writes were applied, the flag only after an
      acknowledged state; everything else is as it was, but for the errors table. */
  ghost predicate RowFailed(before: Db, after: Db, id: JobId, replies: FailPc -> Reply) {
    var state, flag := replies(WriteFailedState), replies(WriteFailedFlag);
    && OnlyRow(before, after, id)
    && (id in before.jobs ==> RowSays(after, id, if state.Applied() then Failed else before.jobs[id].state,
                                      before.jobs[id].isFailed || (state.Acked() && flag.Applied())))
  }

  /** A failed job's row becomes failed, and its errors whose insertion is applied are saved in order. */
  lemma FailAllWrites(db: Db, j: JobId, job: Job, replies: FailPc -> Reply)
    requires job.errors != []
    ensures var after := FailAll(db, j, job, WriteFailedState, replies);
            RowFailed(db, after, j, replies) && ErrorsGrewBy(db, after, j, AppliedErrors(job.errors, 0, replies))
  {
    FailAllUnfold(db, j, job, replies);
    var db1 := db.WriteState(j, Failed, replies(WriteFailedState));
    var db2 := if replies(WriteFailedState).Acked() then db1.WriteIsFailed(j, replies(WriteFailedFlag)) else db1;
    SavingGrows(db2, j, job, 0, replies);
  }

  lemma AllErrorsSaved(before: Db, after: Db, j: JobId, errors: seq<ErrorCode>, replies: FailPc -> Reply)
    requires ErrorsGrewBy(before, after, j, AppliedErrors(errors, 0, replies))
    requires forall k: nat :: replies(SaveError(k)).Applied()
    ensures after.Saved(j) == before.Saved(j) + errors
  {
    AllApplied(errors, 0, replies);
    assert errors[0..] == errors;
  }

  datatype Ending = Requeued | Returned | Crashed

  datatype Ran = Ran(db: Db, job: Job, ending: Ending)

  function Stage(pc: WorkPc): nat {
    match pc
    case ParsePort => 9
    case FindHostJob => 8
    case WriteBlocked(_) => 7
    case FindHost(_) => 6
    case LinkHost(_) => 5
    case ResolveIpmi => 7
    case UpsertHost => 6
    case WriteDone => 4
    case UnknownAction => 4
    case Failing(WriteFailedState) => 3
    case Failing(WriteFailedFlag) => 2
    case Failing(SaveError(_)) => 1
    case Failing(Requeue) => 0
  }

  function Left(job: Job, pc: WorkPc): int {
    if pc.Failing? && pc.pc.SaveError? then |job.errors| - pc.pc.k else 0
  }

  lemma StageFalls(n: int, rules: AllowRules, db: Db, j: JobId, job: Job, pc: WorkPc, a: Answer)
    requires Possible(db, j, job, pc, a)
    ensures var r := WorkStep(n, rules, db, j, job, pc, a);
            r.next.Continue? ==>
              Stage(r.next.pc) < Stage(pc) || (Stage(r.next.pc) == Stage(pc) && 0 <= Left(r.job, r.next.pc) < Left(job, pc))
  {
  }

  /** The world gives a possible answer to every call of the run. */
  ghost predicate Plausible(n: int, rules: AllowRules, db: Db, j: JobId, job: Job, pc: WorkPc, world: WorkPc -> Answer)
    decreases Stage(pc), Left(job, pc)
  {
    pc == Failing(Requeue) ||
    (&& Possible(db, j, job, pc, world(pc))
     && var r := WorkStep(n, rules, db, j, job, pc, world(pc));
        StageFalls(n, rules, db, j, job, pc, world(pc));
        r.next.Continue? ==> Plausible(n, rules, r.db, j, r.job, r.next.pc, world))
  }

  /** A world that refuses what it can; there is one for every job. */
  function Reluctant(pc: WorkPc): Answer {
    match pc
    case ResolveIpmi => Called(None)
    case UpsertHost => Upserted({}, None)
    case ParsePort => Fetched(Err(InternalCommonError), Rejected)
    case FindHostJob => JobRows(QueryFailed)
    case FindHost(_) => HostRows(QueryFailed)
    case UnknownAction => Nothing
    case _ => Wrote(Rejected)
  }

  lemma {:induction false} ReluctantIsPlausible(n: int, rules: AllowRules, db: Db, j: JobId, job: Job, pc: WorkPc)
    requires pc.Failing? && pc.pc.SaveError? ==> pc.pc.k < |job.errors|
    requires pc.Failing? ==> job.errors != []
    ensures Plausible(n, rules, db, j, job, pc, Reluctant)
    decreases Stage(pc), Left(job, pc)
  {
    if pc != Failing(Requeue) {
      var r := WorkStep(n, rules, db, j, job, pc, Reluctant(pc));
      StageFalls(n, rules, db, j, job, pc, Reluctant(pc));
      if r.next.Continue? {
        ReluctantIsPlausible(n, rules, r.db, j, r.job, r.next.pc);
      }
    }
  }

  /** The steps of doJob from `pc` on, one after the other. */
  ghost function Run(n: int, rules: AllowRules, db: Db, j: JobId, job: Job, pc: WorkPc, world: WorkPc -> Answer): Ran
    requires Plausible(n, rules, db, j, job, pc, world)
    decreases Stage(pc), Left(job, pc)
  {
    if pc == Failing(Requeue) then Ran(db, job, Requeued)
    else
      var r := WorkStep(n, rules, db, j, job, pc, world(pc));
      StageFalls(n, rules, db, j, job, pc, world(pc));
      match r.next
      case Continue(pc') => Run(n, rules, r.db, j, r.job, pc', world)
      case Return => Ran(r.db, r.job, Returned)
      case Crash => Ran(r.db, r.job, Crashed)
  }

  function FailReplies(world: WorkPc -> Answer): FailPc -> Reply {
    (f: FailPc) => ReplyTo(world(Failing(f)))
  }

  lemma {:induction false} RunFailing(n: int, rules: AllowRules, db: Db, j: JobId, job: Job, f: FailPc, world: WorkPc -> Answer)
    requires Plausible(n, rules, db, j, job, Failing(f), world)
    requires !f.Requeue? && (f.SaveError? ==> f.k < |job.errors|) && job.errors != []
    ensures Run(n, rules, db, j, job, Failing(f), world) == Ran(FailAll(db, j, job, f, FailReplies(world)), job, Returned)
    decreases Stage(Failing(f)), Left(job, Failing(f))
  {
    var (db', next) := FailStep(db, j, job, f, FailReplies(world)(f));
    if next.Some? {
      RunFailing(n, rules, db', j, job, next.value, world);
    }
  }

  // ---- The job object ----

  class QueueJob {
    const id: JobId
    const action: JobAction
    const requestedBy: RequestId
    const port: BasePort
    var errors: seq<ErrorCode>
    var state: JobStatus
    var isFailed: bool

    ghost function Value(): Job
      reads this, port
    {
      Job(requestedBy, action, state, isFailed, errors, port.Value())
    }

    constructor (id: JobId, req: RequestId, action: JobAction, port: BasePort)
      ensures this.id == id && this.port == port
      ensures Value() == Job(req, action, Created, false, [], port.Value())
    {
      this.id, requestedBy, this.action, this.port := id, req, action, port;
      errors, state, isFailed := [], Created, false;
    }

    method StateUpdate(db: Database, state: JobStatus, reply: Reply) returns (err: Option<ErrorCode>)
      modifies this`state, db
      ensures this.state == state
      ensures db.rows == old(db.rows).WriteState(id, state, reply)
      ensures OnlyRow(old(db.rows), db.rows, id) && db.rows.errorRows == old(db.rows).errorRows
      ensures id in old(db.rows).jobs ==>
                RowSays(db.rows, id, if reply.Applied() then state else old(db.rows).jobs[id].state, old(db.rows).jobs[id].isFailed)
      ensures err == if reply.Acked() then None else Some(InternalSqlError)
    {
      this.state := state;
      db.rows := db.rows.WriteState(id, state, reply);
      return if reply.Acked() then None else Some(InternalSqlError);
    }

    method SetFailed(db: Database, replies: FailPc -> Reply) returns (err: Option<ErrorCode>)
      modifies this`state, this`isFailed, db
      ensures isFailed && state == Failed
      ensures var db1 := old(db.rows).WriteState(id, Failed, replies(WriteFailedState));
              db.rows == if replies(WriteFailedState).Acked() then db1.WriteIsFailed(id, replies(WriteFailedFlag)) else db1
      ensures RowFailed(old(db.rows), db.rows, id, replies) && db.rows.errorRows == old(db.rows).errorRows
      ensures err == None <==> replies(WriteFailedState).Acked() && replies(WriteFailedFlag).Acked()
    {
      isFailed := true;
      err := StateUpdate(db, Failed, replies(WriteFailedState));
      if err.Some? {
        return;
      }
      db.rows := db.rows.WriteIsFailed(id, replies(WriteFailedFlag));
      return if replies(WriteFailedFlag).Acked() then None else Some(InternalSqlError);
    }

    /** Either the error is the last one allowed, and the job is marked failed and its errors
        saved, or the job goes back to the channel and the database is not touched. */
    method AppendAppError(maxFails: int, db: Database, chan: JobChannel, e: ErrorCode, replies: FailPc -> Reply)
      modifies this, db, chan
      ensures Value() == Jobs.AppendAppError(maxFails, old(Value()), e)
      ensures |errors| == maxFails ==>
                db.rows == FailAll(old(db.rows), id, Value(), WriteFailedState, replies) && chan.sent == old(chan.sent)
      ensures errors == old(errors) + [e]
      ensures |errors| == maxFails ==>
                && isFailed && state == Failed
                && RowFailed(old(db.rows), db.rows, id, replies)
                && ErrorsGrewBy(old(db.rows), db.rows, id, AppliedErrors(errors, 0, replies))
      ensures |errors| == maxFails && (forall k: nat :: replies(SaveError(k)).Applied()) ==>
                db.rows.Saved(id) == old(db.rows).Saved(id) + errors
      ensures |errors| != maxFails ==> db.rows == old(db.rows) && chan.sent == old(chan.sent) + [id]
    {
      errors := errors + [e];
      if |errors| == maxFails {
        hide FailAll, RowFailed, ErrorsGrewBy, AppliedErrors, Saving;
        ghost var before := db.rows;
        var _ := SetFailed(db, replies);
        ghost var job := Value();
        assert job == Jobs.AppendAppError(maxFails, old(Value()), e);
        ghost var end := FailAll(before, id, job, WriteFailedState, replies);
        SavingStarts(before, db.rows, id, job, replies);
        FailAllWrites(before, id, job, replies);
        if forall k: nat :: replies(SaveError(k)).Applied() {
          AllErrorsSaved(before, end, id, errors, replies);
        }
        for k := 0 to |errors|
          invariant Value() == job && chan.sent == old(chan.sent)
          invariant Saving(end, db.rows, id, job, k, replies)
        {
          SavingGoesOn(end, db.rows, id, job, k, replies);
          db.rows := db.rows.SaveError(id, errors[k], replies(SaveError(k)));
        }
        SavingEnds(end, db.rows, id, job, replies);
        return;
      }
      chan.Send(id);
    }
  }

  // ---- The worker ----

  class QueueWorker {
    const maxFails: int
    const rules: AllowRules

    constructor (maxFails: int, rules: AllowRules)
      ensures this.maxFails == maxFails && this.rules == rules
    {
      this.maxFails, this.rules := maxFails, rules;
    }

    /** What is left of the run once the job has failed. */
    method Fail(jb: QueueJob, db: Database, chan: JobChannel, e: ErrorCode, world: WorkPc -> Answer)
      requires var r := FailWith(maxFails, db.rows, jb.Value(), e);
               Plausible(maxFails, rules, r.db, jb.id, r.job, r.next.pc, world)
      modifies jb, db, chan
      ensures var r := old(FailWith(maxFails, db.rows, jb.Value(), e));
              var ran := Run(maxFails, rules, r.db, jb.id, r.job, r.next.pc, world);
              && db.rows == ran.db && jb.Value() == ran.job && ran.ending != Crashed
              && chan.sent == old(chan.sent) + if ran.ending == Requeued then [jb.id] else []
    {
      ghost var r := FailWith(maxFails, db.rows, jb.Value(), e);
      jb.AppendAppError(maxFails, db, chan, e, FailReplies(world));
      if |jb.errors| == maxFails {
        RunFailing(maxFails, rules, r.db, jb.id, r.job, WriteFailedState, world);
      }
    }

    /** doJob: whatever the world answers, the job, the database and the channel end up as
        the steps of the transition system leave them. */
    method DoJob(jb: QueueJob, db: Database, chan: JobChannel, world: WorkPc -> Answer) returns (crashed: bool)
      requires Plausible(maxFails, rules, db.rows, jb.id, jb.Value(), FirstPc(jb.action), world)
      modifies jb, jb.port, db, chan
      ensures var ran := old(Run(maxFails, rules, db.rows, jb.id, jb.Value(), FirstPc(jb.action), world));
              && db.rows == ran.db && jb.Value() == ran.job
              && crashed == (ran.ending == Crashed)
              && chan.sent == old(chan.sent) + if ran.ending == Requeued then [jb.id] else []
    {
      crashed := false;
      match jb.action {
        case HostCreate => DoHostCreate(jb, db, chan, world);
        case RsviewParse => crashed := DoRsviewParse(jb, db, chan, world);
        case _ =>
      }
    }

    method DoHostCreate(jb: QueueJob, db: Database, chan: JobChannel, world: WorkPc -> Answer)
      requires Plausible(maxFails, rules, db.rows, jb.id, jb.Value(), ResolveIpmi, world)
      modifies jb, db, chan
      ensures var ran := old(Run(maxFails, rules, db.rows, jb.id, jb.Value(), ResolveIpmi, world));
              && db.rows == ran.db && jb.Value() == ran.job && ran.ending != Crashed
              && chan.sent == old(chan.sent) + if ran.ending == Requeued then [jb.id] else []
    {
      ghost var ran := Run(maxFails, rules, db.rows, jb.id, jb.Value(), ResolveIpmi, world);
      var resolved := world(ResolveIpmi);
      if resolved.err.Some? {
        Fail(jb, db, chan, resolved.err.value, world);
        return;
      }
      assert Plausible(maxFails, rules, db.rows, jb.id, jb.Value(), UpsertHost, world);
      assert ran == Run(maxFails, rules, db.rows, jb.id, jb.Value(), UpsertHost, world);
      var upserted := world(UpsertHost);
      db.rows := db.rows.(hosts := upserted.hosts);
      if upserted.err.Some? {
        Fail(jb, db, chan, upserted.err.value, world);
        return;
      }
      assert Plausible(maxFails, rules, db.rows, jb.id, jb.Value(), WriteDone, world);
      assert ran == Run(maxFails, rules, db.rows, jb.id, jb.Value(), WriteDone, world);
      var _ := jb.StateUpdate(db, Done, world(WriteDone).reply);
    }

    method DoRsviewParse(jb: QueueJob, db: Database, chan: JobChannel, world: WorkPc -> Answer) returns (crashed: bool)
      requires Plausible(maxFails, rules, db.rows, jb.id, jb.Value(), ParsePort, world)
      modifies jb, jb.port, db, chan
      ensures var ran := old(Run(maxFails, rules, db.rows, jb.id, jb.Value(), ParsePort, world));
              && db.rows == ran.db && jb.Value() == ran.job
              && crashed == (ran.ending == Crashed)
              && chan.sent == old(chan.sent) + if ran.ending == Requeued then [jb.id] else []
    {
      crashed := false;
      var fetched := world(ParsePort);
      var table: Result<Table, ErrorCode>;
      match fetched.page {
        case Err(e) => table := Err(e);
        case Ok(page) =>
          var cells, scanErr := ParseResponseHtml(page);
          table := if scanErr.Some? then Err(scanErr.value) else Ok(cells);
      }
      assert Reading(table, fetched.update) == ReadingOf(fetched.page, fetched.update);
      var err := jb.port.ParseRsviewProperties(rules, Reading(table, fetched.update));
      if err.Some? {
        Fail(jb, db, chan, err.value, world);
        return;
      }
      assert Plausible(maxFails, rules, db.rows, jb.id, jb.Value(), FindHostJob, world);
      crashed := LinkPort(jb, db, chan, world);
    }

    /** The part of doJob after the port's properties are known. */
    method LinkPort(jb: QueueJob, db: Database, chan: JobChannel, world: WorkPc -> Answer) returns (crashed: bool)
      requires Plausible(maxFails, rules, db.rows, jb.id, jb.Value(), FindHostJob, world)
      modifies jb, db, chan
      ensures var ran := old(Run(maxFails, rules, db.rows, jb.id, jb.Value(), FindHostJob, world));
              && db.rows == ran.db && jb.Value() == ran.job
              && crashed == (ran.ending == Crashed)
              && chan.sent == old(chan.sent) + if ran.ending == Requeued then [jb.id] else []
    {
      crashed := false;
      var found := world(FindHostJob).found;
      if found.QueryFailed? || found.ManyRows? {
        Fail(jb, db, chan, InternalSqlError, world);
        return;
      }
      if found.NoRows? {
        // reqHostJob is nil, and its state is read next.
        return true;
      }
      var hostJob := found.row;
      if db.rows.jobs[hostJob].state == Pending {
        assert Plausible(maxFails, rules, db.rows, jb.id, jb.Value(), WriteBlocked(hostJob), world);
        var _ := jb.StateUpdate(db, Blocked, world(WriteBlocked(hostJob)).reply);
      }
      assert Plausible(maxFails, rules, db.rows, jb.id, jb.Value(), FindHost(hostJob), world);
      LinkToHost(jb, db, chan, hostJob, world);
    }

    /** The part of doJob after the host job of the request is known. */
    method LinkToHost(jb: QueueJob, db: Database, chan: JobChannel, hostJob: JobId, world: WorkPc -> Answer)
      requires Plausible(maxFails, rules, db.rows, jb.id, jb.Value(), FindHost(hostJob), world)
      modifies jb, db, chan
      ensures var ran := old(Run(maxFails, rules, db.rows, jb.id, jb.Value(), FindHost(hostJob), world));
              && db.rows == ran.db && jb.Value() == ran.job && ran.ending != Crashed
              && chan.sent == old(chan.sent) + if ran.ending == Requeued then [jb.id] else []
    {
      ghost var ran := Run(maxFails, rules, db.rows, jb.id, jb.Value(), FindHost(hostJob), world);
      var found := world(FindHost(hostJob)).hostFound;
      if found.QueryFailed? || found.ManyRows? {
        Fail(jb, db, chan, InternalSqlError, world);
        return;
      }
      if found.NoRows? {
        Fail(jb, db, chan, HostsNotFound, world);
        return;
      }
      var host := found.row;
      if jb.port.lldpHost != host.hostname {
        Fail(jb, db, chan, RsviewLldpMismatch, world);
        return;
      }
      assert Plausible(maxFails, rules, db.rows, jb.id, jb.Value(), LinkHost(host), world);
      assert ran == Run(maxFails, rules, db.rows, jb.id, jb.Value(), LinkHost(host), world);
      var linked := world(LinkHost(host)).reply;
      db.rows := db.rows.Link(jb.port.mac, host.id, linked);
      if !linked.Acked() {
        Fail(jb, db, chan, InternalSqlError, world);
        return;
      }
      assert Plausible(maxFails, rules, db.rows, jb.id, jb.Value(), WriteDone, world);
      assert ran == Run(maxFails, rules, db.rows, jb.id, jb.Value(), WriteDone, world);
      var _ := jb.StateUpdate(db, Done, world(WriteDone).reply);
    }
  }
}
