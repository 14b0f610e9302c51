// What must have happened before a job was done, over whole runs.
module QueueEvidence {
  import opened Common
  import opened AppErrors
  import opened Rsview
  import opened Ports
  import opened Jobs
  import opened Queue
  import opened QueueConservation
  import opened QueueInvariant
  import opened QueueSteps
  import opened QueueOwnership
  import opened QueueHistory

  // ---- The steps an attempt goes through ----

  /** Step `k` of the run is made by a worker that is at `pc` with job `j`, in the attempt
      that follows the job's first `e` errors. */
  ghost predicate WorksAt(run: Run, k: nat, j: JobId, e: nat, pc: WorkPc) {
    && k < |run.actions| && |run.states| == |run.actions| + 1
    && run.actions[k].Local? && run.actions[k].agent.WorkerAgent?
    && var s, w := run.states[k], run.actions[k].agent.i;
       && w < |s.workers| && s.workers[w].mode == Executing(j, pc)
       && j < |s.jobs| && |s.jobs[j].errors| == e
  }

  /** A page of 18 cells was read, which left the port as `p`: every property is known, the LLDP
      name is the one on that page, and they were saved. */
  ghost predicate Parsed(c: Config, run: Run, k: nat, j: JobId, e: nat, p: Port) {
    && WorksAt(run, k, j, e, ParsePort)
    && var a := run.actions[k].answer;
       && a.Fetched? && a.page.Ok? && a.update.Acked()
       && ParsePage(a.page.value).Ok? && |ParsePage(a.page.value).value| == CELL_COUNT
       && j < |run.states[k + 1].jobs|
       && p == Attempt(c.rules, run.states[k].jobs[j].port, ReadingOf(a.page, a.update)).port
       && p == run.states[k + 1].jobs[j].port
       && FullyRead(p)
       && p.lldpHost == BeforeDot(ParsePage(a.page.value).value[LLDP_CELL])
  }

  /** Step `k` is made with the port as `p`. */
  ghost predicate Carries(run: Run, k: nat, j: JobId, p: Port) {
    k < |run.states| && j < |run.states[k].jobs| && run.states[k].jobs[j].port == p
  }

  /** The host job of the job's own request was looked up and found, `pending` by its row or not. */
  ghost predicate FoundJob(run: Run, k: nat, j: JobId, e: nat, p: Port, h: JobId, pending: bool) {
    && WorksAt(run, k, j, e, FindHostJob) && Carries(run, k, j, p)
    && run.actions[k].answer == JobRows(OneRow(h))
    && IsHostJobRow(run.states[k].db, run.states[k].jobs[j].requestedBy, h)
    && pending == (run.states[k].db.jobs[h].state == Pending)
  }

  /** A host row written by that host job was read, and its name is the LLDP name of the port. */
  ghost predicate ReadHost(run: Run, k: nat, j: JobId, e: nat, p: Port, h: JobId, row: HostRow) {
    && WorksAt(run, k, j, e, FindHost(h)) && Carries(run, k, j, p)
    && run.actions[k].answer == HostRows(OneRow(row))
    && IsHostOf(run.states[k].db, h, row)
    && row.hostname == p.lldpHost
  }

  /** The link from the port's MAC address to that host was written and acknowledged. */
  ghost predicate Linked(run: Run, k: nat, j: JobId, e: nat, p: Port, row: HostRow) {
    && WorksAt(run, k, j, e, LinkHost(row)) && Carries(run, k, j, p)
    && run.actions[k].answer == Wrote(Committed)
    && p.mac in run.states[k + 1].db.links && run.states[k + 1].db.links[p.mac] == row.id
  }

  ghost predicate AfterParse(c: Config, run: Run, n: nat, j: JobId, e: nat, p: Port) {
    exists k: nat :: k < n && Parsed(c, run, k, j, e, p)
  }

  ghost predicate AfterFindJob(c: Config, run: Run, n: nat, j: JobId, e: nat, p: Port, h: JobId, pending: bool) {
    exists k: nat :: k < n && FoundJob(run, k, j, e, p, h, pending) && AfterParse(c, run, k, j, e, p)
  }

  /** The host job was found, and the job marked blocked after that if the host job was pending. */
  ghost predicate AfterWait(c: Config, run: Run, n: nat, j: JobId, e: nat, p: Port, h: JobId) {
    || AfterFindJob(c, run, n, j, e, p, h, false)
    || exists k: nat :: k < n && WorksAt(run, k, j, e, WriteBlocked(h)) && AfterFindJob(c, run, k, j, e, p, h, true)
  }

  ghost predicate AfterReadHost(c: Config, run: Run, n: nat, j: JobId, e: nat, p: Port, row: HostRow) {
    exists k: nat, h: JobId :: k < n && ReadHost(run, k, j, e, p, h, row) && AfterWait(c, run, k, j, e, p, h)
  }

  ghost predicate AfterLink(c: Config, run: Run, n: nat, j: JobId, e: nat, p: Port) {
    exists k: nat, row: HostRow :: k < n && Linked(run, k, j, e, p, row) && AfterReadHost(c, run, k, j, e, p, row)
  }

  /** Before step `n`, in one and the same attempt and in this order: a page was parsed and left the
      port as `p`, and with that very port the host job was found, the job marked blocked if the
      host job was pending, its host read and matched, the link written, and the job marked done. */
  ghost predicate Provisioned(c: Config, run: Run, n: nat, j: JobId, e: nat, p: Port) {
    exists k: nat :: k < n && WorksAt(run, k, j, e, WriteDone) && Carries(run, k, j, p) && AfterLink(c, run, k, j, e, p)
  }

  /** The IPMI name was resolved. */
  ghost predicate AfterResolve(run: Run, n: nat, j: JobId, e: nat) {
    exists k: nat :: k < n && WorksAt(run, k, j, e, ResolveIpmi) && run.actions[k].answer == Called(None)
  }

  /** The host was written, and the hosts table is what that left. */
  ghost predicate WroteHost(run: Run, k: nat, j: JobId, e: nat) {
    && WorksAt(run, k, j, e, UpsertHost)
    && run.actions[k].answer == Upserted(run.states[k + 1].db.hosts, None)
  }

  ghost predicate AfterUpsert(run: Run, n: nat, j: JobId, e: nat) {
    exists k: nat :: k < n && WroteHost(run, k, j, e) && AfterResolve(run, k, j, e)
  }

  /** Before step `n`, in one and the same attempt and in this order: the IPMI name was resolved,
      the host written, and the job marked done. */
  ghost predicate HostWritten(run: Run, n: nat, j: JobId, e: nat) {
    exists k: nat :: k < n && WorksAt(run, k, j, e, WriteDone) && AfterUpsert(run, k, j, e)
  }

  /** What a done job has behind it. */
  ghost predicate Earned(c: Config, run: Run, n: nat, job: Job, j: JobId) {
    && (job.action == RsviewParse ==> Provisioned(c, run, n, j, |job.errors|, job.port))
    && (job.action == HostCreate ==> HostWritten(run, n, j, |job.errors|))
  }

  ghost predicate Evidence(c: Config, run: Run, n: nat, job: Job, j: JobId, pc: WorkPc) {
    var e, p := |job.errors|, job.port;
    match pc
    case FindHostJob => AfterParse(c, run, n, j, e, p)
    case UpsertHost => AfterResolve(run, n, j, e)
    case WriteBlocked(h) => AfterFindJob(c, run, n, j, e, p, h, true)
    case FindHost(h) => AfterWait(c, run, n, j, e, p, h)
    case LinkHost(row) => AfterReadHost(c, run, n, j, e, p, row)
    case WriteDone =>
      && (job.action == RsviewParse ==> AfterLink(c, run, n, j, e, p))
      && (job.action == HostCreate ==> AfterUpsert(run, n, j, e))
    case _ => true
  }

  lemma EvidenceStays(c: Config, run: Run, n: nat, job: Job, j: JobId, pc: WorkPc)
    requires Evidence(c, run, n, job, j, pc)
    ensures Evidence(c, run, n + 1, job, j, pc)
  {
  }

  ghost predicate EvidenceAt(c: Config, run: Run, n: nat)
    requires n < |run.states|
  {
    var s := run.states[n];
    && (forall w :: 0 <= w < |s.workers| && s.workers[w].mode.Executing? && s.workers[w].mode.job < |s.jobs| ==>
          Evidence(c, run, n, s.jobs[s.workers[w].mode.job], s.workers[w].mode.job, s.workers[w].mode.pc))
    && (forall j :: 0 <= j < |s.jobs| && s.jobs[j].state == Done ==> Earned(c, run, n, s.jobs[j], j))
  }

  /** What a worker's own step owes to the evidence. */
  ghost predicate EvidenceGrows(c: Config, run: Run, n: nat, w: WorkerId)
    requires n < |run.states| - 1 && w < |run.states[n].workers|
    requires run.states[n].workers[w].mode.Executing? && run.states[n].workers[w].mode.job < |run.states[n].jobs|
  {
    var s, s' := run.states[n], run.states[n + 1];
    var j := s.workers[w].mode.job;
    && w < |s'.workers| && j < |s'.jobs|
    && (s'.workers[w].mode.Executing? ==>
          s'.workers[w].mode.job == j && Evidence(c, run, n + 1, s'.jobs[j], j, s'.workers[w].mode.pc))
    && (s'.jobs[j].state == Done ==> Earned(c, run, n + 1, s'.jobs[j], j))
  }

  /** Worker `w` makes step `n` at `pc`. */
  ghost predicate Moving(c: Config, run: Run, n: nat, w: WorkerId, pc: WorkPc) {
    && IsRun(c, run) && n < |run.actions|
    && run.actions[n].Local? && run.actions[n].agent == WorkerAgent(w)
    && var s := run.states[n];
       && WorkerAsks(s, w, run.actions[n].answer) && s.workers[w].mode.pc == pc
       && var j := s.workers[w].mode.job;
          WorkPcOk(c, s.jobs[j], s.db, j, pc) && Evidence(c, run, n, s.jobs[j], j, pc)
  }

  lemma MovingStep(c: Config, run: Run, n: nat, w: WorkerId, pc: WorkPc)
    requires Moving(c, run, n, w, pc)
    ensures n + 1 < |run.states|
    ensures var job := run.states[n].jobs[run.states[n].workers[w].mode.job];
            job.state != Done && (pc.LinkHost? ==> job.action == RsviewParse)
    ensures var s, s', j := run.states[n], run.states[n + 1], run.states[n].workers[w].mode.job;
            var r := WorkStep(c.maxFails, c.rules, s.db, j, s.jobs[j], pc, run.actions[n].answer);
            && s'.jobs == s.jobs[j := r.job] && s'.db == r.db && |s'.workers| == |s.workers|
            && s'.workers[w].mode == (match r.next
                                      case Continue(next) => Executing(j, next)
                                      case Return => Announcing
                                      case Crash => s.workers[w].mode)
  {
    hide WorkStep, Possible, WorkerLocal, Evidence, Subsequence;
    RunStep(c, run, n);
    LocalSteps(c, run.states[n], run.actions[n]);
    WorkerLocalShape(c, run.states[n], w, run.actions[n].answer);
  }

  lemma ParseGrows(c: Config, run: Run, n: nat, w: WorkerId)
    requires Moving(c, run, n, w, ParsePort)
    ensures EvidenceGrows(c, run, n, w)
  {
    hide Enabled, Next, Subsequence, FullyRead, Attempt, FailWith;
    MovingStep(c, run, n, w, ParsePort);
    var s, a := run.states[n], run.actions[n].answer;
    var j := s.workers[w].mode.job;
    var reading := ReadingOf(a.page, a.update);
    if Attempt(c.rules, s.jobs[j].port, reading).err == None {
      SuccessReadsEverything(c.rules, s.jobs[j].port, reading);
      AttemptSucceeds(c.rules, s.jobs[j].port, reading);
      LldpNameIsOfThisPage(c.rules, s.jobs[j].port, a.page.value, a.update);
      assert Parsed(c, run, n, j, |s.jobs[j].errors|, run.states[n + 1].jobs[j].port);
    }
  }

  lemma FindJobGrows(c: Config, run: Run, n: nat, w: WorkerId)
    requires Moving(c, run, n, w, FindHostJob)
    ensures EvidenceGrows(c, run, n, w)
  {
    hide Enabled, Next, Subsequence, FullyRead, Attempt, FailWith;
    MovingStep(c, run, n, w, FindHostJob);
    var s, a := run.states[n], run.actions[n].answer;
    var j := s.workers[w].mode.job;
    if a.found.OneRow? {
      assert HostJobRows(s.db, s.jobs[j].requestedBy)(a.found.row);
      assert FoundJob(run, n, j, |s.jobs[j].errors|, s.jobs[j].port, a.found.row, s.db.jobs[a.found.row].state == Pending);
    }
  }

  lemma FindHostGrows(c: Config, run: Run, n: nat, w: WorkerId, h: JobId)
    requires Moving(c, run, n, w, FindHost(h))
    ensures EvidenceGrows(c, run, n, w)
  {
    hide Enabled, Next, WorkPcOk, FailWith, AfterLink, AfterWait, AfterFindJob, AfterParse, Provisioned;
    MovingStep(c, run, n, w, FindHost(h));
    var s, a := run.states[n], run.actions[n].answer;
    var j := s.workers[w].mode.job;
    if a.hostFound.OneRow? && a.hostFound.row.hostname == s.jobs[j].port.lldpHost {
      assert HostsOf(s.db, h)(a.hostFound.row);
      assert ReadHost(run, n, j, |s.jobs[j].errors|, s.jobs[j].port, h, a.hostFound.row);
    }
  }

  lemma LinkGrows(c: Config, run: Run, n: nat, w: WorkerId, row: HostRow)
    requires Moving(c, run, n, w, LinkHost(row))
    ensures EvidenceGrows(c, run, n, w)
  {
    hide Enabled, Next, WorkPcOk, FailWith, AfterReadHost, AfterWait, AfterFindJob, AfterParse, Provisioned;
    MovingStep(c, run, n, w, LinkHost(row));
    var s := run.states[n];
    var j := s.workers[w].mode.job;
    if run.actions[n].answer.reply.Acked() {
      assert Linked(run, n, j, |s.jobs[j].errors|, s.jobs[j].port, row);
    }
  }

  lemma DoneGrows(c: Config, run: Run, n: nat, w: WorkerId)
    requires Moving(c, run, n, w, WriteDone)
    ensures EvidenceGrows(c, run, n, w)
  {
    hide Enabled, Next, Subsequence, FullyRead, Attempt, FailWith;
    MovingStep(c, run, n, w, WriteDone);
    var s := run.states[n];
    var j := s.workers[w].mode.job;
    assert WorksAt(run, n, j, |s.jobs[j].errors|, WriteDone);
  }

  lemma BlockedGrows(c: Config, run: Run, n: nat, w: WorkerId, h: JobId)
    requires Moving(c, run, n, w, WriteBlocked(h))
    ensures EvidenceGrows(c, run, n, w)
  {
    hide Enabled, Next, Subsequence, FullyRead, Attempt, FailWith;
    MovingStep(c, run, n, w, WriteBlocked(h));
    var s := run.states[n];
    var j := s.workers[w].mode.job;
    assert WorksAt(run, n, j, |s.jobs[j].errors|, WriteBlocked(h));
  }

  lemma ResolveGrows(c: Config, run: Run, n: nat, w: WorkerId)
    requires Moving(c, run, n, w, ResolveIpmi)
    ensures EvidenceGrows(c, run, n, w)
  {
    hide Enabled, Next, WorkPcOk, FailWith, Earned;
    MovingStep(c, run, n, w, ResolveIpmi);
    var s := run.states[n];
    var j := s.workers[w].mode.job;
    assert WorksAt(run, n, j, |s.jobs[j].errors|, ResolveIpmi);
  }

  lemma UpsertGrows(c: Config, run: Run, n: nat, w: WorkerId)
    requires Moving(c, run, n, w, UpsertHost)
    ensures EvidenceGrows(c, run, n, w)
  {
    hide Enabled, Next, FailWith, Earned, AfterResolve, Subsequence;
    MovingStep(c, run, n, w, UpsertHost);
    var s := run.states[n];
    var j := s.workers[w].mode.job;
    if run.actions[n].answer.err == None {
      assert WroteHost(run, n, j, |s.jobs[j].errors|);
    }
  }

  lemma PlainGrows(c: Config, run: Run, n: nat, w: WorkerId, pc: WorkPc)
    requires Moving(c, run, n, w, pc)
    requires pc.UnknownAction? || pc.Failing?
    ensures EvidenceGrows(c, run, n, w)
  {
    hide Enabled, Next, Subsequence, FullyRead, Attempt, FailWith;
    MovingStep(c, run, n, w, pc);
  }

  lemma OwnStepGrows(c: Config, run: Run, n: nat, w: WorkerId, pc: WorkPc)
    requires Moving(c, run, n, w, pc)
    ensures EvidenceGrows(c, run, n, w)
  {
    hide Moving, EvidenceGrows;
    match pc
    case ResolveIpmi => ResolveGrows(c, run, n, w);
    case UpsertHost => UpsertGrows(c, run, n, w);
    case ParsePort => ParseGrows(c, run, n, w);
    case FindHostJob => FindJobGrows(c, run, n, w);
    case WriteBlocked(h) => BlockedGrows(c, run, n, w, h);
    case FindHost(h) => FindHostGrows(c, run, n, w, h);
    case LinkHost(row) => LinkGrows(c, run, n, w, row);
    case WriteDone => DoneGrows(c, run, n, w);
    case _ => PlainGrows(c, run, n, w, pc);
  }

  /** A worker that goes on executing without having moved itself still has its job at the
      same point, or has just received it. */
  lemma OthersLeaveWorkerAlone(c: Config, s: State, a: Action, w: WorkerId)
    requires Enabled(c, s, a) && w < |s.workers|
    requires !(a.Local? && a.agent == WorkerAgent(w))
    ensures var s' := Next(c, s, a);
            && w < |s'.workers|
            && (s'.workers[w].mode.Executing? && s'.workers[w].mode != s.workers[w].mode ==>
                  s'.jobs == s.jobs && s'.workers[w].mode.job < |s.jobs|
                  && s'.workers[w].mode.pc == FirstPc(s.jobs[s'.workers[w].mode.job].action))
  {
    hide RoutineLocal, WorkerLocal, RoutineAsks, WorkerAsks;
    if a.Local? {
      LocalSteps(c, s, a);
      if a.agent.WorkerAgent? {
        WorkerLocalShape(c, s, a.agent.i, a.answer);
      } else {
        RoutineLocalShape(c, s, a.agent.i, a.answer);
      }
    }
  }

  lemma NotHeldIsUntouched(c: Config, s: State, a: Action, j: JobId)
    requires Inv(c, s) && Enabled(c, s, a) && j < |s.jobs|
    requires a.Local? ==> !HeldBy(s, a.agent, j)
    ensures Untouching(s, Next(c, s, a), j)
  {
    if !Untouching(s, Next(c, s, a), j) {
      HolderWrites(c, s, a, j);
    }
  }

  lemma RunHasEvidenceAtWorker(c: Config, run: Run, n: nat, w: WorkerId)
    requires IsRun(c, run) && n < |run.actions| && Inv(c, run.states[n]) && EvidenceAt(c, run, n)
    requires w < |run.states[n + 1].workers| && run.states[n + 1].workers[w].mode.Executing?
    requires run.states[n + 1].workers[w].mode.job < |run.states[n + 1].jobs|
    ensures var s' := run.states[n + 1];
            Evidence(c, run, n + 1, s'.jobs[s'.workers[w].mode.job], s'.workers[w].mode.job, s'.workers[w].mode.pc)
  {
    hide Enabled, Next, Evidence, WorkPcOk, Possible, RowsOk, RequestsOk, HostsOk, WorkerLocal, RoutineLocal;
    var s, s', a := run.states[n], run.states[n + 1], run.actions[n];
    var j, pc := s'.workers[w].mode.job, s'.workers[w].mode.pc;
    StepKeepsWorkers(c, s, a);
    RunStep(c, run, n);
    if a.Local? && a.agent == WorkerAgent(w) {
      LocalSteps(c, s, a);
      HeldIsOk(c, s, InWorker(w), s.workers[w].mode.job);
      assert Moving(c, run, n, w, s.workers[w].mode.pc);
      OwnStepGrows(c, run, n, w, s.workers[w].mode.pc);
    } else {
      OthersLeaveWorkerAlone(c, s, a, w);
      if s'.workers[w].mode == s.workers[w].mode {
        assert Holds(s, InWorker(w), j);
        if a.Local? && HeldBy(s, a.agent, j) {
          AtMostOnePlace(s, InWorker(w), PlaceOfAgent(a.agent), j);
        }
        NotHeldIsUntouched(c, s, a, j);
        EvidenceStays(c, run, n, s.jobs[j], j, pc);
      } else {
        FirstPcNeedsNothing(c, run, n + 1, s'.jobs[j], j);
        assert pc == FirstPc(s'.jobs[j].action);
      }
    }
  }

  lemma FirstPcNeedsNothing(c: Config, run: Run, n: nat, job: Job, j: JobId)
    ensures Evidence(c, run, n, job, j, FirstPc(job.action))
  {
  }

  lemma StepKeepsWorkers(c: Config, s: State, a: Action)
    requires Enabled(c, s, a)
    ensures |Next(c, s, a).workers| == |s.workers|
  {
  }

  lemma InsertedIsNotDone(c: Config, s: State, a: Action)
    requires Enabled(c, s, a) && |s.jobs| < |Next(c, s, a).jobs|
    ensures Next(c, s, a).jobs[|s.jobs|].state == Created
  {
    StepHeap(c, s, a);
  }

  lemma HeldIsOk(c: Config, s: State, p: Place, j: JobId)
    requires Inv(c, s) && Holds(s, p, j)
    ensures j < |s.jobs| && JobOk(c, s.jobs[j], s.db, j, PhaseOf(s, p, j))
  {
  }

  lemma EarnedStays(c: Config, run: Run, n: nat, job: Job, j: JobId)
    requires Earned(c, run, n, job, j)
    ensures Earned(c, run, n + 1, job, j)
  {
  }

  lemma RunHasEvidenceOfDone(c: Config, run: Run, n: nat, j: JobId)
    requires IsRun(c, run) && n < |run.actions| && Inv(c, run.states[n]) && EvidenceAt(c, run, n)
    requires j < |run.states[n + 1].jobs|
    requires run.states[n + 1].jobs[j].state == Done
    ensures Earned(c, run, n + 1, run.states[n + 1].jobs[j], j)
  {
    hide Enabled, Next, Evidence, Earned, WorkPcOk, Possible, PlacesOk, RowsOk, RequestsOk, HostsOk, Conserved, WorkerLocal, RoutineLocal;
    var s, a := run.states[n], run.actions[n];
    RunStep(c, run, n);
    StepHeap(c, s, a);
    if a.Insert? {
      InsertedIsNotDone(c, s, a);
    }
    if j < |s.jobs| && s.jobs[j].state == Done {
      StepAbsorbs(c, s, a, j);
      EarnedStays(c, run, n, s.jobs[j], j);
    } else if j < |s.jobs| {
      HolderWrites(c, s, a, j);
      LocalSteps(c, s, a);
      if a.agent.WorkerAgent? {
        var w := a.agent.i;
        HeldIsOk(c, s, InWorker(w), j);
        assert Moving(c, run, n, w, s.workers[w].mode.pc);
        OwnStepGrows(c, run, n, w, s.workers[w].mode.pc);
      } else {
        RoutineNeverFinishes(c, s, a.agent.i, a.answer);
      }
    }
  }

  lemma RoutineNeverFinishes(c: Config, s: State, r: nat, a: Answer)
    requires RoutineAsks(s, r, a)
    ensures var j := s.routines[r].job; RoutineLocal(c, s, r, a).jobs[j].state == Done ==> s.jobs[j].state == Done
  {
  }

  lemma {:induction false} RunHasEvidence(c: Config, run: Run, n: nat)
    requires IsRun(c, run) && n < |run.states|
    ensures EvidenceAt(c, run, n)
  {
    hide Enabled, Next, Inv, Evidence, Earned;
    if n > 0 {
      RunHasEvidence(c, run, n - 1);
      RunKeepsInv(c, run, n - 1);
      var s := run.states[n];
      forall w | 0 <= w < |s.workers| && s.workers[w].mode.Executing? && s.workers[w].mode.job < |s.jobs|
        ensures Evidence(c, run, n, s.jobs[s.workers[w].mode.job], s.workers[w].mode.job, s.workers[w].mode.pc)
      {
        RunHasEvidenceAtWorker(c, run, n - 1, w);
      }
      forall j | 0 <= j < |s.jobs| && s.jobs[j].state == Done ensures Earned(c, run, n, s.jobs[j], j)
      {
        RunHasEvidenceOfDone(c, run, n - 1, j);
      }
    }
  }

  /** Over every run, retries and all: an rsview job is done only after, in its last attempt and
      in this order, its page was parsed, the host job of its request found, the job marked blocked
      if that was pending, the host it wrote read and matched by name, and the link to it written,
      all for the port as the page of that attempt left it. The same holds of a job whose persisted
      state is done. */
  lemma DoneMeansProvisioned(c: Config, run: Run, n: nat, j: JobId)
    requires IsRun(c, run) && n < |run.states| && j < |run.states[n].jobs|
    requires run.states[n].jobs[j].action == RsviewParse
    requires run.states[n].jobs[j].state == Done
          || (j in run.states[n].db.jobs && run.states[n].db.jobs[j].state == Done)
    ensures Provisioned(c, run, n, j, |run.states[n].jobs[j].errors|, run.states[n].jobs[j].port)
  {
    RowsStayOk(c, run, n);
    RunHasEvidence(c, run, n);
  }

  /** A host job is done, in memory or in its row, only after its last attempt resolved the IPMI
      name, wrote the host, and then marked the job done, in this order. */
  lemma DoneMeansHostWritten(c: Config, run: Run, n: nat, j: JobId)
    requires IsRun(c, run) && n < |run.states| && j < |run.states[n].jobs|
    requires run.states[n].jobs[j].action == HostCreate
    requires run.states[n].jobs[j].state == Done
          || (j in run.states[n].db.jobs && run.states[n].db.jobs[j].state == Done)
    ensures HostWritten(run, n, j, |run.states[n].jobs[j].errors|)
  {
    RowsStayOk(c, run, n);
    RunHasEvidence(c, run, n);
  }

  // ---- What the outside can always answer ----

  /** Whenever a worker of a reachable state is about to write a host, any host can come to be written
      under its job, and the worker goes on to mark the job done. */
  lemma AnyHostCanBeWritten(c: Config, s: State, w: WorkerId, id: string, hostname: string)
    requires Reachable(c, s) && w < |s.workers| && s.workers[w].mode.Executing? && s.workers[w].mode.pc == UpsertHost
    ensures var j, row := s.workers[w].mode.job, HostRow(id, hostname, Some(s.workers[w].mode.job));
            var a := Local(WorkerAgent(w), Upserted(s.db.hosts + {row}, None));
            && Enabled(c, s, a)
            && IsHostOf(Next(c, s, a).db, j, row)
            && Next(c, s, a).workers[w].mode == Executing(j, WriteDone)
  {
    InvHolds(c, s);
    HeldIsOk(c, s, InWorker(w), s.workers[w].mode.job);
  }

  ghost predicate IsOnlyHostOf(db: Db, h: JobId, row: HostRow) {
    IsHostOf(db, h, row) && forall other :: IsHostOf(db, h, other) ==> other == row
  }

  /** Whenever a worker of a reachable state looks up the host job of its request, the look-up can
      find it; and when it reads the host of that job and there is exactly one, it can find that. */
  lemma LookupsCanSucceed(c: Config, s: State, w: WorkerId)
    requires Reachable(c, s) && w < |s.workers| && s.workers[w].mode.Executing?
    ensures var j, pc := s.workers[w].mode.job, s.workers[w].mode.pc;
            && j < |s.jobs|
            && (pc == FindHostJob ==> exists h: JobId :: IsHostJobRow(s.db, s.jobs[j].requestedBy, h)
                                        && Enabled(c, s, Local(WorkerAgent(w), JobRows(OneRow(h)))))
            && (pc.FindHost? ==> forall row :: IsOnlyHostOf(s.db, pc.hostJob, row) ==>
                                   Enabled(c, s, Local(WorkerAgent(w), HostRows(OneRow(row)))))
  {
    hide WorkStep, Subsequence, RoutineAsks;
    InvHolds(c, s);
    var j, pc := s.workers[w].mode.job, s.workers[w].mode.pc;
    HeldIsOk(c, s, InWorker(w), j);
    if pc == FindHostJob {
      assert HasHostRow(s.db, s.jobs[j].requestedBy);
      var h: JobId :| IsHostJobRow(s.db, s.jobs[j].requestedBy, h);
      assert Answers(HostJobRows(s.db, s.jobs[j].requestedBy), OneRow(h));
    }
  }
}
