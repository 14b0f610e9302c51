// The books of a job over a run: its errors, and those offered to the errors table, against
// what went wrong in the steps taken for it; and its state against what those steps made it.
module QueueLedger {
  import opened Common
  import opened AppErrors
  import opened Ports
  import opened Jobs
  import opened Queue
  import opened QueueConservation
  import opened QueueInvariant
  import opened QueueSteps
  import opened QueueOwnership

  // ---- What goes wrong in a step ----

  /** The error that a worker at `pc` meets with this answer. */
  function WorkFault(rules: AllowRules, job: Job, pc: WorkPc, a: Answer): Option<ErrorCode> {
    match a
    case Called(err) => if pc.ResolveIpmi? then err else None
    case Upserted(_, err) => if pc.UpsertHost? then err else None
    case Fetched(page, update) => if pc.ParsePort? then Attempt(rules, job.port, ReadingOf(page, update)).err else None
    case JobRows(found) => if pc.FindHostJob? && (found.QueryFailed? || found.ManyRows?) then Some(InternalSqlError) else None
    case HostRows(found) =>
      if !pc.FindHost? then None
      else if found.NoRows? then Some(HostsNotFound)
      else if !found.OneRow? then Some(InternalSqlError)
      else if found.row.hostname != job.port.lldpHost then Some(RsviewLldpMismatch)
      else None
    case Wrote(reply) => if pc.LinkHost? && !reply.Acked() then Some(InternalSqlError) else None
    case Nothing => None
  }

  /** The only write of a dispatch goroutine whose failure counts is that of the pending state. */
  function RoutineFault(pc: RoutinePc, a: Answer): Option<ErrorCode> {
    if pc.WritePending? && a.Wrote? && !a.reply.Acked() then Some(InternalSqlError) else None
  }

  function FaultAt(c: Config, s: State, a: Action, j: JobId): Option<ErrorCode> {
    match a
    case Local(RoutineAgent(r), ans) =>
      if r < |s.routines| && s.routines[r].job == j then RoutineFault(s.routines[r].pc, ans) else None
    case Local(WorkerAgent(w), ans) =>
      if w < |s.workers| && s.workers[w].mode.Executing? && s.workers[w].mode.job == j < |s.jobs| then
        WorkFault(c.rules, s.jobs[j], s.workers[w].mode.pc, ans)
      else None
    case _ => None
  }

  // ---- What is offered to the errors table ----

  function Offer(job: Job, f: FailPc): seq<ErrorCode> {
    if f.SaveError? && f.k < |job.errors| then [job.errors[f.k]] else []
  }

  function OfferAt(s: State, a: Action, j: JobId): seq<ErrorCode> {
    match a
    case Local(RoutineAgent(r), _) =>
      if r < |s.routines| && s.routines[r].job == j < |s.jobs| && s.routines[r].pc.Erring? then
        Offer(s.jobs[j], s.routines[r].pc.f)
      else []
    case Local(WorkerAgent(w), _) =>
      if w < |s.workers| && s.workers[w].mode.Executing? && s.workers[w].mode.job == j < |s.jobs| && s.workers[w].mode.pc.Failing? then
        Offer(s.jobs[j], s.workers[w].mode.pc.pc)
      else []
    case _ => []
  }

  // ---- The books ----

  ghost function Faults(c: Config, run: Run, n: nat, j: JobId): seq<ErrorCode>
    requires HasSteps(run, n)
  {
    if n == 0 then []
    else Faults(c, run, n - 1, j) + AsSeq(FaultAt(c, run.states[n - 1], run.actions[n - 1], j))
  }

  ghost function Offered(run: Run, n: nat, j: JobId): seq<ErrorCode>
    requires HasSteps(run, n)
  {
    if n == 0 then [] else Offered(run, n - 1, j) + OfferAt(run.states[n - 1], run.actions[n - 1], j)
  }

  function AsSeq<T>(x: Option<T>): seq<T> {
    if x.Some? then [x.value] else []
  }

  /** What has gone wrong with a job in this phase: its errors, and one not yet appended. */
  function Faulted(job: Job, phase: Phase): seq<ErrorCode> {
    job.errors + if phase.InDispatch? && phase.rpc.Refused? then [InternalSqlError] else []
  }

  function OfferedUpTo(job: Job, f: FailPc): seq<ErrorCode> {
    if f.SaveError? && f.k <= |job.errors| then job.errors[..f.k] else []
  }

  /** What has been offered to the errors table of a job in this phase. */
  function OfferedIn(job: Job, phase: Phase): seq<ErrorCode> {
    match phase
    case InDispatch(pc) => if pc.Erring? then OfferedUpTo(job, pc.f) else []
    case InWork(pc) => if pc.Failing? then OfferedUpTo(job, pc.pc) else []
    case Retired => if job.isFailed then job.errors else []
    case _ => []
  }

  /** `faults` and `offers` are what the job's phase calls for. */
  ghost predicate Books(job: Job, phase: Phase, faults: seq<ErrorCode>, offers: seq<ErrorCode>) {
    faults == Faulted(job, phase) && offers == OfferedIn(job, phase)
  }

  /** In these phases every fault is appended and nothing is offered yet. */
  predicate IsPlain(phase: Phase) {
    match phase
    case InDispatch(pc) => !pc.Refused? && (pc.Erring? ==> pc.f.Requeue?)
    case InWork(pc) => pc.Failing? ==> pc.pc.Requeue?
    case Retired => false
    case _ => true
  }

  // ---- Steps that only move jobs ----

  /** A job that is where it was, or was moved from one plain phase to another. */
  ghost predicate Moved(s: State, s': State, p: Place, j: JobId)
    requires Holds(s', p, j)
  {
    || (Holds(s, p, j) && PhaseOf(s, p, j) == PhaseOf(s', p, j))
    || (IsPlain(PhaseOf(s', p, j)) && exists q :: Holds(s, q, j) && IsPlain(PhaseOf(s, q, j)))
  }

  lemma TokensMove(c: Config, s: State, a: Action, p: Place, j: JobId)
    requires Enabled(c, s, a) && IsTokenStep(a) && Holds(Next(c, s, a), p, j)
    ensures Moved(s, Next(c, s, a), p, j)
  {
    hide WorkerLocal, RoutineLocal, WorkerAsks, RoutineAsks;
    if Holds(s, p, j) && PhaseOf(s, p, j) != PhaseOf(Next(c, s, a), p, j) {
      assert IsPlain(PhaseOf(s, p, j));
    }
  }

  lemma SendingMoves(c: Config, s: State, a: Action, p: Place, j: JobId)
    requires Enabled(c, s, a) && (a.Send? || a.Handoff?) && Holds(Next(c, s, a), p, j)
    ensures Moved(s, Next(c, s, a), p, j)
  {
    hide WorkerLocal, RoutineLocal, WorkerAsks, RoutineAsks;
    if !Holds(s, p, j) || PhaseOf(s, p, j) != PhaseOf(Next(c, s, a), p, j) {
      assert Holds(s, PlaceOfAgent(a.agent), j) && IsPlain(PhaseOf(s, PlaceOfAgent(a.agent), j));
    }
  }

  lemma ReceivingMoves(c: Config, s: State, a: Action, p: Place, j: JobId)
    requires Enabled(c, s, a) && (a.Dispatch? || a.Receive?) && Holds(Next(c, s, a), p, j)
    ensures Moved(s, Next(c, s, a), p, j)
  {
    hide WorkerLocal, RoutineLocal, WorkerAsks, RoutineAsks;
    if !Holds(s, p, j) || PhaseOf(s, p, j) != PhaseOf(Next(c, s, a), p, j) {
      var from := if a.Dispatch? then InQueue else InInbox(a.w);
      assert Holds(s, from, j) && IsPlain(PhaseOf(s, from, j));
    }
  }

  lemma DeliveringMoves(c: Config, s: State, a: Action, p: Place, j: JobId)
    requires Enabled(c, s, a) && (a.Deliver? || a.DeliverDirect?) && Holds(Next(c, s, a), p, j)
    ensures Moved(s, Next(c, s, a), p, j)
  {
    hide WorkerLocal, RoutineLocal, WorkerAsks, RoutineAsks;
    if !Holds(s, p, j) || PhaseOf(s, p, j) != PhaseOf(Next(c, s, a), p, j) {
      assert Holds(s, InRoutine(a.r), j) && IsPlain(PhaseOf(s, InRoutine(a.r), j));
    }
  }

  lemma InsertMoves(s: State, h: nat, reply: Reply, p: Place, j: JobId)
    requires CanInsert(s, h) && Holds(DoInsert(s, h, reply), p, j) && j != |s.jobs|
    ensures Moved(s, DoInsert(s, h, reply), p, j)
  {
    if !Holds(s, p, j) {
      assert Holds(s, InHandler(h), j) && IsPlain(PhaseOf(s, InHandler(h), j));
    }
  }

  lemma LocalMoves(c: Config, s: State, a: Action, p: Place, j: JobId)
    requires Enabled(c, s, a) && a.Local? && !HeldBy(s, a.agent, j) && Holds(Next(c, s, a), p, j)
    ensures Moved(s, Next(c, s, a), p, j)
  {
    hide Enabled, Next, WorkStep, Possible, WorkerLocal, RoutineLocal;
    LocalSteps(c, s, a);
    if a.agent.WorkerAgent? {
      WorkerLocalShape(c, s, a.agent.i, a.answer);
    } else {
      RoutineLocalShape(c, s, a.agent.i, a.answer);
    }
  }

  // ---- The holder's own steps ----

  lemma FailStepBooks(job: Job, db: Db, j: JobId, f: FailPc, r: Reply)
    requires !f.Requeue? && (f.SaveError? ==> f.k < |job.errors|) && job.errors != []
    ensures var (_, next) := FailStep(db, j, job, f, r);
            OfferedUpTo(job, f) + Offer(job, f) == if next.Some? then OfferedUpTo(job, next.value) else job.errors
  {
    if f.SaveError? {
      assert job.errors[..f.k] + [job.errors[f.k]] == job.errors[..f.k + 1];
    }
  }

  /** What a step of `j`'s holder leads to. */
  function PhaseAfter(r: WorkResult): Phase {
    if r.next.Continue? then InWork(r.next.pc) else Retired
  }

  lemma FailingStepBooks(c: Config, db: Db, j: JobId, job: Job, pc: WorkPc, a: Answer)
    requires CanStep(c, db, j, job, pc, a) && pc.Failing? && pc != Failing(Requeue)
    ensures var r := WorkStep(c.maxFails, c.rules, db, j, job, pc, a);
            Books(r.job, PhaseAfter(r), Faulted(job, InWork(pc)) + AsSeq(WorkFault(c.rules, job, pc, a)),
                  OfferedIn(job, InWork(pc)) + if pc.Failing? then Offer(job, pc.pc) else [])
  {
    hide FailStep, Subsequence, RowOk, Live;
    FailStepBooks(job, db, j, pc.pc, a.reply);
  }

  lemma WorkStepBooks(c: Config, db: Db, j: JobId, job: Job, pc: WorkPc, a: Answer)
    requires CanStep(c, db, j, job, pc, a) && pc != Failing(Requeue)
    ensures var r := WorkStep(c.maxFails, c.rules, db, j, job, pc, a);
            Books(r.job, PhaseAfter(r), Faulted(job, InWork(pc)) + AsSeq(WorkFault(c.rules, job, pc, a)),
                  OfferedIn(job, InWork(pc)) + if pc.Failing? then Offer(job, pc.pc) else [])
  {
    if pc.Failing? {
      FailingStepBooks(c, db, j, job, pc, a);
    } else {
      hide FailStep, Attempt, Answers, Subsequence, IsReadPort, RowOk;
    }
  }

  lemma RoutineStepBooks(c: Config, s: State, r: nat, a: Answer)
    requires RoutineAsks(s, r, a)
    requires var j := s.routines[r].job; JobOk(c, s.jobs[j], s.db, j, InDispatch(s.routines[r].pc))
    ensures var s', j, pc := RoutineLocal(c, s, r, a), s.routines[r].job, s.routines[r].pc;
            Books(s'.jobs[j], if s'.routines[r].pc.Ended? then Retired else InDispatch(s'.routines[r].pc),
                  Faulted(s.jobs[j], InDispatch(pc)) + AsSeq(RoutineFault(pc, a)),
                  OfferedIn(s.jobs[j], InDispatch(pc)) + if pc.Erring? then Offer(s.jobs[j], pc.f) else [])
  {
    hide FailStep, Subsequence;
    var j, pc := s.routines[r].job, s.routines[r].pc;
    if pc.Erring? {
      FailStepBooks(s.jobs[j], s.db, j, pc.f, a.reply);
    }
  }

  // ---- Every step ----

  lemma PlainBooks(job: Job, phase: Phase)
    requires IsPlain(phase)
    ensures Faulted(job, phase) == job.errors && OfferedIn(job, phase) == []
  {
  }

  /** The books of job `j` are right wherever it is. */
  ghost predicate BooksOf(s: State, j: JobId, faults: seq<ErrorCode>, offers: seq<ErrorCode>) {
    && (j >= |s.jobs| ==> faults == [] && offers == [])
    && forall p :: j < |s.jobs| && Holds(s, p, j) ==> Books(s.jobs[j], PhaseOf(s, p, j), faults, offers)
  }

  lemma MovedBooks(s: State, s': State, p: Place, j: JobId, faults: seq<ErrorCode>, offers: seq<ErrorCode>)
    requires j < |s.jobs| && j < |s'.jobs| && s'.jobs[j] == s.jobs[j]
    requires Holds(s', p, j) && Moved(s, s', p, j) && BooksOf(s, j, faults, offers)
    ensures Books(s'.jobs[j], PhaseOf(s', p, j), faults, offers)
  {
    hide Holds, IsPlain, Faulted, OfferedIn;
    if !(Holds(s, p, j) && PhaseOf(s, p, j) == PhaseOf(s', p, j)) {
      var q :| Holds(s, q, j) && IsPlain(PhaseOf(s, q, j));
      PlainBooks(s.jobs[j], PhaseOf(s, q, j));
      PlainBooks(s.jobs[j], PhaseOf(s', p, j));
    }
  }

  lemma InsertedBooks(s: State, h: nat, reply: Reply, p: Place)
    requires CanInsert(s, h) && Conserved(s) && Holds(DoInsert(s, h, reply), p, |s.jobs|)
    ensures var s', j := DoInsert(s, h, reply), |s.jobs|;
            j < |s'.jobs| && Books(s'.jobs[j], PhaseOf(s', p, j), [], [])
  {
    var s', j := DoInsert(s, h, reply), |s.jobs|;
    if Holds(s, p, j) {
      HoldsCounts(s, p, j);
    }
    assert IsPlain(PhaseOf(s', p, j));
    PlainBooks(s'.jobs[j], PhaseOf(s', p, j));
  }

  /** Whoever holds the job is still its only holder, or it is retired. */
  lemma HolderOrRetired(c: Config, s: State, a: Action, p: Place, j: JobId)
    requires Inv(c, s) && Enabled(c, s, a) && a.Local? && HeldBy(s, a.agent, j) && Holds(Next(c, s, a), p, j)
    ensures p == PlaceOfAgent(a.agent) || p == IsRetired
    ensures a.agent.RoutineAgent? ==> (p == IsRetired <==> Next(c, s, a).routines[a.agent.i].pc.Ended?)
    ensures a.agent.WorkerAgent? ==> (p == IsRetired <==> Next(c, s, a).workers[a.agent.i].mode == Announcing)
  {
    hide WorkStep, Possible, WorkerLocal, RoutineLocal, Inv;
    var s' := Next(c, s, a);
    StepKeepsInv(c, s, a);
    LocalSteps(c, s, a);
    if a.agent.WorkerAgent? {
      WorkerLocalShape(c, s, a.agent.i, a.answer);
      WorkerLocalKnownToGoOn(c, s, a.agent.i, a.answer);
    } else {
      RoutineLocalShape(c, s, a.agent.i, a.answer);
    }
    var at := if Holds(s', PlaceOfAgent(a.agent), j) then PlaceOfAgent(a.agent) else IsRetired;
    assert Holds(s', at, j);
    PlaceIsUnique(c, s', p, at, j);
  }

  lemma PlaceIsUnique(c: Config, s: State, p: Place, q: Place, j: JobId)
    requires Inv(c, s) && Holds(s, p, j) && Holds(s, q, j)
    ensures p == q
  {
    AtMostOnePlace(s, p, q, j);
  }

  /** A worker never crashes. */
  lemma WorkerLocalKnownToGoOn(c: Config, s: State, w: WorkerId, a: Answer)
    requires Inv(c, s) && WorkerAsks(s, w, a)
    ensures var j := s.workers[w].mode.job;
            && CanStep(c, s.db, j, s.jobs[j], s.workers[w].mode.pc, a)
            && !WorkStep(c.maxFails, c.rules, s.db, j, s.jobs[j], s.workers[w].mode.pc, a).next.Crash?
  {
    hide WorkStep, Possible, Subsequence;
    var j := s.workers[w].mode.job;
    assert Holds(s, InWorker(w), j);
    assert JobOk(c, s.jobs[j], s.db, j, PhaseOf(s, InWorker(w), j));
    WorkStepOk(c, s.db, j, s.jobs[j], s.workers[w].mode.pc, a);
  }

  lemma WorkerBooks(c: Config, s: State, w: WorkerId, a: Answer, p: Place, faults: seq<ErrorCode>, offers: seq<ErrorCode>)
    requires Inv(c, s) && Enabled(c, s, Local(WorkerAgent(w), a))
    requires var j := s.workers[w].mode.job;
             BooksOf(s, j, faults, offers) && Holds(Next(c, s, Local(WorkerAgent(w), a)), p, j)
    ensures var j, act := s.workers[w].mode.job, Local(WorkerAgent(w), a);
            var s' := Next(c, s, act);
            j < |s'.jobs| && Books(s'.jobs[j], PhaseOf(s', p, j), faults + AsSeq(FaultAt(c, s, act, j)), offers + OfferAt(s, act, j))
  {
    hide Enabled, Next, Inv, WorkStep, Possible, WorkerLocal, Books, WorkFault, CanStep;
    var act := Local(WorkerAgent(w), a);
    LocalSteps(c, s, act);
    var j, pc := s.workers[w].mode.job, s.workers[w].mode.pc;
    assert Holds(s, InWorker(w), j);
    WorkerLocalShape(c, s, w, a);
    WorkerLocalKnownToGoOn(c, s, w, a);
    HolderOrRetired(c, s, act, p, j);
    NotRequeueing(s, w, a);
    BooksSplit(s.jobs[j], InWork(pc), faults, offers);
    WorkStepBooks(c, s.db, j, s.jobs[j], pc, a);
  }

  lemma NotRequeueing(s: State, w: WorkerId, a: Answer)
    requires WorkerAsks(s, w, a)
    ensures s.workers[w].mode.pc != Failing(Requeue)
  {
  }

  lemma BooksSplit(job: Job, phase: Phase, faults: seq<ErrorCode>, offers: seq<ErrorCode>)
    requires Books(job, phase, faults, offers)
    ensures faults == Faulted(job, phase) && offers == OfferedIn(job, phase)
  {
  }

  lemma RoutineBooks(c: Config, s: State, r: nat, a: Answer, p: Place, faults: seq<ErrorCode>, offers: seq<ErrorCode>)
    requires Inv(c, s) && Enabled(c, s, Local(RoutineAgent(r), a))
    requires var j := s.routines[r].job;
             BooksOf(s, j, faults, offers) && Holds(Next(c, s, Local(RoutineAgent(r), a)), p, j)
    ensures var j, act := s.routines[r].job, Local(RoutineAgent(r), a);
            var s' := Next(c, s, act);
            j < |s'.jobs| && Books(s'.jobs[j], PhaseOf(s', p, j), faults + AsSeq(FaultAt(c, s, act, j)), offers + OfferAt(s, act, j))
  {
    hide Enabled, Next, Inv, RoutineLocal, Books, RoutineFault, Offer;
    var act := Local(RoutineAgent(r), a);
    LocalSteps(c, s, act);
    var j, pc := s.routines[r].job, s.routines[r].pc;
    assert Holds(s, InRoutine(r), j);
    RoutineLocalShape(c, s, r, a);
    RoutineIsOk(c, s, r);
    HolderOrRetired(c, s, act, p, j);
    BooksSplit(s.jobs[j], InDispatch(pc), faults, offers);
    RoutineStepBooks(c, s, r, a);
  }

  lemma RoutineIsOk(c: Config, s: State, r: nat)
    requires Inv(c, s) && r < |s.routines| && s.routines[r].pc != Ended
    ensures var j := s.routines[r].job; j < |s.jobs| && JobOk(c, s.jobs[j], s.db, j, InDispatch(s.routines[r].pc))
  {
    assert Holds(s, InRoutine(r), s.routines[r].job);
  }

  lemma StepMoves(c: Config, s: State, a: Action, p: Place, j: JobId)
    requires Enabled(c, s, a) && Holds(Next(c, s, a), p, j)
    requires a.Local? ==> !HeldBy(s, a.agent, j)
    requires a.Insert? ==> j != |s.jobs|
    ensures Moved(s, Next(c, s, a), p, j)
  {
    hide Enabled, Next, Moved;
    StepShape(c, s, a);
    match a
    case NewRequest(macs) => NewRequestMoves(s, macs, p, j);
    case Insert(h, reply) => InsertMoves(s, h, reply, p, j);
    case Send(_) => SendingMoves(c, s, a, p, j);
    case Handoff(_) => SendingMoves(c, s, a, p, j);
    case Dispatch => ReceivingMoves(c, s, a, p, j);
    case Receive(_) => ReceivingMoves(c, s, a, p, j);
    case Deliver(_) => DeliveringMoves(c, s, a, p, j);
    case DeliverDirect(_) => DeliveringMoves(c, s, a, p, j);
    case Local(_, _) => LocalMoves(c, s, a, p, j);
    case _ => TokensMove(c, s, a, p, j);
  }

  lemma NewRequestMoves(s: State, macs: seq<string>, p: Place, j: JobId)
    requires Holds(DoNewRequest(s, macs), p, j)
    ensures Moved(s, DoNewRequest(s, macs), p, j)
  {
  }

  lemma NobodyElsesEntry(c: Config, s: State, a: Action, j: JobId)
    requires Enabled(c, s, a) && (a.Local? ==> !HeldBy(s, a.agent, j))
    ensures FaultAt(c, s, a, j) == None && OfferAt(s, a, j) == []
  {
  }

  lemma StepBooks(c: Config, s: State, a: Action, p: Place, j: JobId, faults: seq<ErrorCode>, offers: seq<ErrorCode>)
    requires Inv(c, s) && Enabled(c, s, a) && BooksOf(s, j, faults, offers) && Holds(Next(c, s, a), p, j)
    requires j < |Next(c, s, a).jobs|
    ensures var s' := Next(c, s, a);
            Books(s'.jobs[j], PhaseOf(s', p, j), faults + AsSeq(FaultAt(c, s, a, j)), offers + OfferAt(s, a, j))
  {
    hide Enabled, Next, Inv, Books, FaultAt, OfferAt;
    StepHeap(c, s, a);
    StepShape(c, s, a);
    if a.Local? && HeldBy(s, a.agent, j) {
      LocalSteps(c, s, a);
      if a.agent.WorkerAgent? {
        WorkerBooks(c, s, a.agent.i, a.answer, p, faults, offers);
      } else {
        RoutineBooks(c, s, a.agent.i, a.answer, p, faults, offers);
      }
    } else {
      NobodyElsesEntry(c, s, a, j);
      assert faults + [] == faults && offers + [] == offers;
      if a.Insert? && j == |s.jobs| {
        InvConserves(c, s);
        InsertedBooks(s, a.h, a.reply, p);
      } else {
        if !Untouching(s, Next(c, s, a), j) {
          HolderWrites(c, s, a, j);
        }
        StepMoves(c, s, a, p, j);
        MovedBooks(s, Next(c, s, a), p, j, faults, offers);
      }
    }
  }

  lemma InvConserves(c: Config, s: State)
    requires Inv(c, s)
    ensures Conserved(s)
  {
  }

  lemma NoEntryForNobody(c: Config, s: State, a: Action, j: JobId)
    requires Inv(c, s) && Enabled(c, s, a) && j >= |s.jobs|
    ensures FaultAt(c, s, a, j) == None && OfferAt(s, a, j) == []
  {
    hide Enabled;
    if a.Local? && HeldBy(s, a.agent, j) {
      HeldIsKnown(c, s, PlaceOfAgent(a.agent), j);
    }
    NobodyElsesEntry(c, s, a, j);
  }

  lemma HeldIsKnown(c: Config, s: State, p: Place, j: JobId)
    requires Inv(c, s) && Holds(s, p, j)
    ensures j < |s.jobs|
  {
  }

  lemma {:induction false} RunBooks(c: Config, run: Run, n: nat, j: JobId)
    requires IsRun(c, run) && n < |run.states|
    ensures BooksOf(run.states[n], j, Faults(c, run, n, j), Offered(run, n, j))
  {
    hide Enabled, Next, Inv, Books, FaultAt, OfferAt, Holds;
    if n == 0 {
      assert run.states[0].jobs == [];
    } else {
      RunBooks(c, run, n - 1, j);
      RunKeepsInv(c, run, n - 1);
      RunStep(c, run, n - 1);
      var s, a, s' := run.states[n - 1], run.actions[n - 1], run.states[n];
      var faults, offers := Faults(c, run, n - 1, j), Offered(run, n - 1, j);
      StepHeap(c, s, a);
      if j >= |s'.jobs| {
        NoEntryForNobody(c, s, a, j);
      }
      forall p | j < |s'.jobs| && Holds(s', p, j)
        ensures Books(s'.jobs[j], PhaseOf(s', p, j), Faults(c, run, n, j), Offered(run, n, j))
      {
        StepBooks(c, s, a, p, j, faults, offers);
      }
    }
  }

  /** Over every run the errors of a job are what went wrong in the steps taken for it, all of it and
      in that order, but for a refused pending state that its goroutine is about to append. */
  lemma ErrorsAreTheFaults(c: Config, run: Run, n: nat, p: Place, j: JobId)
    requires IsRun(c, run) && n < |run.states| && Holds(run.states[n], p, j)
    ensures j < |run.states[n].jobs|
    ensures Faults(c, run, n, j) == run.states[n].jobs[j].errors
            + if p.InRoutine? && run.states[n].routines[p.r].pc.Refused? then [InternalSqlError] else []
  {
    RunBooks(c, run, n, j);
    RunKeepsInv(c, run, n);
    HeldIsKnown(c, run.states[n], p, j);
  }

  /** When a failed job is retired, each of its errors has been offered to the errors table, once
      and in order; of a job that has not failed none ever is. */
  lemma EveryErrorIsOffered(c: Config, run: Run, n: nat, j: JobId)
    requires IsRun(c, run) && n < |run.states| && j < |run.states[n].jobs|
    ensures j in run.states[n].retired && run.states[n].jobs[j].isFailed ==> Offered(run, n, j) == run.states[n].jobs[j].errors
    ensures !run.states[n].jobs[j].isFailed ==> Offered(run, n, j) == []
  {
    var s := run.states[n];
    RunBooks(c, run, n, j);
    RunKeepsInv(c, run, n);
    PlacedSomewhere(c, s, j);
    var p :| Holds(s, p, j);
    assert Books(s.jobs[j], PhaseOf(s, p, j), Faults(c, run, n, j), Offered(run, n, j));
    if j in s.retired {
      assert Holds(s, IsRetired, j);
      PlaceIsUnique(c, s, p, IsRetired, j);
    }
    if !s.jobs[j].isFailed {
      UnfailedOffersNothing(c, s.jobs[j], s.db, j, PhaseOf(s, p, j));
    }
  }

  lemma PlacedSomewhere(c: Config, s: State, j: JobId)
    requires Inv(c, s) && j < |s.jobs|
    ensures exists p :: Holds(s, p, j)
    ensures forall p :: Holds(s, p, j) ==> JobOk(c, s.jobs[j], s.db, j, PhaseOf(s, p, j))
  {
    assert Count(s, j) == 1;
    var p := SomePlace(s, j);
  }

  lemma UnfailedOffersNothing(c: Config, job: Job, db: Db, j: JobId, phase: Phase)
    requires JobOk(c, job, db, j, phase) && !job.isFailed
    ensures OfferedIn(job, phase) == []
  {
  }

  // ---- The state in memory ----

  /** One more error fails the job when it is the last one allowed. */
  function FailsWith(c: Config, job: Job, fault: Option<ErrorCode>): Option<JobStatus> {
    if fault.Some? && |job.errors| + 1 == c.maxFails then Some(Failed) else None
  }

  function WorkSets(c: Config, job: Job, pc: WorkPc, a: Answer): Option<JobStatus> {
    match pc
    case WriteBlocked(_) => Some(Blocked)
    case WriteDone => Some(Done)
    case _ => FailsWith(c, job, WorkFault(c.rules, job, pc, a))
  }

  function RoutineSets(c: Config, job: Job, pc: RoutinePc): Option<JobStatus> {
    match pc
    case WritePending => Some(Pending)
    case Refused => FailsWith(c, job, Some(InternalSqlError))
    case _ => None
  }

  /** The state that the step gives job `j` in memory, whatever becomes of the write to its row. */
  function SetsState(c: Config, s: State, a: Action, j: JobId): Option<JobStatus> {
    match a
    case Insert(_, _) => if j == |s.jobs| then Some(Created) else None
    case Local(RoutineAgent(r), _) =>
      if r < |s.routines| && s.routines[r].job == j < |s.jobs| then RoutineSets(c, s.jobs[j], s.routines[r].pc) else None
    case Local(WorkerAgent(w), ans) =>
      if w < |s.workers| && s.workers[w].mode.Executing? && s.workers[w].mode.job == j < |s.jobs| then
        WorkSets(c, s.jobs[j], s.workers[w].mode.pc, ans)
      else None
    case _ => None
  }

  ghost function LastSet(c: Config, run: Run, n: nat, j: JobId): Option<JobStatus>
    requires HasSteps(run, n)
  {
    if n == 0 then None
    else
      var now := SetsState(c, run.states[n - 1], run.actions[n - 1], j);
      if now.Some? then now else LastSet(c, run, n - 1, j)
  }

  lemma WorkStepSets(c: Config, db: Db, j: JobId, job: Job, pc: WorkPc, a: Answer)
    requires Possible(db, j, job, pc, a)
    ensures var r, state := WorkStep(c.maxFails, c.rules, db, j, job, pc, a), WorkSets(c, job, pc, a);
            r.job.state == if state.Some? then state.value else job.state
  {
    hide FailStep, Attempt, Answers;
  }

  lemma RoutineStepSets(c: Config, s: State, r: nat, a: Answer)
    requires RoutineAsks(s, r, a)
    ensures var j := s.routines[r].job;
            var state := RoutineSets(c, s.jobs[j], s.routines[r].pc);
            RoutineLocal(c, s, r, a).jobs[j].state == if state.Some? then state.value else s.jobs[j].state
  {
    hide FailStep;
  }

  lemma StepSets(c: Config, s: State, a: Action, j: JobId)
    requires Enabled(c, s, a) && j < |Next(c, s, a).jobs|
    ensures var state := SetsState(c, s, a, j);
            && (j >= |s.jobs| ==> state.Some?)
            && Next(c, s, a).jobs[j].state == if state.Some? then state.value else s.jobs[j].state
  {
    hide Enabled, Next, WorkStep, WorkerLocal, RoutineLocal, WorkSets, RoutineSets;
    StepShape(c, s, a);
    StepHeap(c, s, a);
    if a.Local? {
      LocalSteps(c, s, a);
      if a.agent.WorkerAgent? {
        var w := a.agent.i;
        var k := s.workers[w].mode.job;
        WorkerLocalShape(c, s, w, a.answer);
        WorkStepSets(c, s.db, k, s.jobs[k], s.workers[w].mode.pc, a.answer);
      } else {
        RoutineLocalShape(c, s, a.agent.i, a.answer);
        RoutineStepSets(c, s, a.agent.i, a.answer);
      }
    }
  }

  /** Over every run a job's state in memory is the last one that a step gave it: created when it is
      inserted, pending when a goroutine takes it up, blocked, done, or failed with the error that
      meets the limit. */
  lemma {:induction false} StateIsTheLastSet(c: Config, run: Run, n: nat, j: JobId)
    requires IsRun(c, run) && n < |run.states| && j < |run.states[n].jobs|
    ensures LastSet(c, run, n, j) == Some(run.states[n].jobs[j].state)
  {
    hide Enabled, Next, SetsState;
    if n > 0 {
      RunStep(c, run, n - 1);
      StepSets(c, run.states[n - 1], run.actions[n - 1], j);
      if j < |run.states[n - 1].jobs| {
        StateIsTheLastSet(c, run, n - 1, j);
      }
    }
  }
}
