// Facts about whole runs: what stays once it is reached, and what a persisted state was once
// in memory.
module QueueHistory {
  import opened Common
  import opened AppErrors
  import opened Rsview
  import opened Ports
  import opened Jobs
  import opened Queue
  import opened QueueConservation
  import opened QueueInvariant
  import opened QueueSteps
  import opened QueueTermination
  import opened QueueOwnership

  // ---- Done and failed are final ----

  lemma StepAbsorbs(c: Config, s: State, a: Action, j: JobId)
    requires Inv(c, s) && Enabled(c, s, a) && j < |s.jobs|
    requires s.jobs[j].state == Done || s.jobs[j].state == Failed
    ensures j < |Next(c, s, a).jobs| && Next(c, s, a).jobs[j] == s.jobs[j]
  {
    StepHeap(c, s, a);
    if !Untouching(s, Next(c, s, a), j) {
      HolderWrites(c, s, a, j);
      assert Holds(s, PlaceOfAgent(a.agent), j);
      assert JobOk(c, s.jobs[j], s.db, j, PhaseOf(s, PlaceOfAgent(a.agent), j));
    }
  }

  /** Over whole runs a job that is done or failed stays as it is, errors and all. */
  lemma {:induction false} FinalStatesAreFinal(c: Config, run: Run, i: nat, n: nat, j: JobId)
    requires IsRun(c, run) && i <= n < |run.states| && j < |run.states[i].jobs|
    requires run.states[i].jobs[j].state == Done || run.states[i].jobs[j].state == Failed
    ensures j < |run.states[n].jobs| && run.states[n].jobs[j] == run.states[i].jobs[j]
    decreases n
  {
    hide Enabled, Next, Inv;
    if i < n {
      FinalStatesAreFinal(c, run, i, n - 1, j);
      RunKeepsInv(c, run, n - 1);
      StepAbsorbs(c, run.states[n - 1], run.actions[n - 1], j);
    }
  }

  // ---- The persisted state ----

  lemma WorkStepPersists(c: Config, db: Db, j: JobId, job: Job, pc: WorkPc, a: Answer)
    requires Possible(db, j, job, pc, a) && WorkPcOk(c, job, db, j, pc)
    ensures var r := WorkStep(c.maxFails, c.rules, db, j, job, pc, a);
            && (j in r.db.jobs <==> j in db.jobs)
            && (j in db.jobs ==> r.db.jobs[j].state == r.job.state || r.db.jobs[j].state == db.jobs[j].state)
  {
  }

  lemma RoutineStepPersists(c: Config, s: State, r: nat, a: Answer)
    requires RoutineAsks(s, r, a)
    requires var j := s.routines[r].job; JobOk(c, s.jobs[j], s.db, j, InDispatch(s.routines[r].pc))
    ensures var s', j := RoutineLocal(c, s, r, a), s.routines[r].job;
            && (j in s'.db.jobs <==> j in s.db.jobs)
            && (j in s.db.jobs ==> s'.db.jobs[j].state == s'.jobs[j].state || s'.db.jobs[j].state == s.db.jobs[j].state)
  {
    hide FailStep, FailPcOk;
    var j, pc := s.routines[r].job, s.routines[r].pc;
    if pc.Erring? {
      FailStepPersists(c, s.db, j, s.jobs[j], pc.f, a.reply);
    }
  }

  lemma FailStepPersists(c: Config, db: Db, j: JobId, job: Job, f: FailPc, r: Reply)
    requires FailPcOk(c, job, db, j, f) && !f.Requeue?
    ensures var (db', _) := FailStep(db, j, job, f, r);
            && (j in db'.jobs <==> j in db.jobs)
            && (j in db.jobs ==> db'.jobs[j].state == job.state || db'.jobs[j].state == db.jobs[j].state)
  {
    hide Subsequence;
  }

  lemma LocalPersists(c: Config, s: State, a: Action, j: JobId)
    requires Inv(c, s) && Enabled(c, s, a) && a.Local? && HeldBy(s, a.agent, j) && j < |s.jobs|
    ensures var s' := Next(c, s, a);
            && |s'.jobs| == |s.jobs| && (j in s'.db.jobs <==> j in s.db.jobs)
            && (j in s.db.jobs ==> s'.db.jobs[j].state == s'.jobs[j].state || s'.db.jobs[j].state == s.db.jobs[j].state)
  {
    hide Enabled, Next, Conserved, RowsOk, RequestsOk, HostsOk, WorkStep, Possible, WorkerLocal, RoutineLocal;
    assert JobOk(c, s.jobs[j], s.db, j, PhaseOf(s, PlaceOfAgent(a.agent), j));
    LocalSteps(c, s, a);
    if a.agent.WorkerAgent? {
      WorkerLocalShape(c, s, a.agent.i, a.answer);
      WorkStepPersists(c, s.db, j, s.jobs[j], s.workers[a.agent.i].mode.pc, a.answer);
    } else {
      RoutineLocalShape(c, s, a.agent.i, a.answer);
      RoutineStepPersists(c, s, a.agent.i, a.answer);
    }
  }

  lemma StepPersists(c: Config, s: State, a: Action, j: JobId)
    requires Inv(c, s) && Enabled(c, s, a) && j in Next(c, s, a).db.jobs
    ensures var s' := Next(c, s, a);
            && j < |s'.jobs|
            && (s'.db.jobs[j].state == s'.jobs[j].state ||
                (j in s.db.jobs && s'.db.jobs[j].state == s.db.jobs[j].state))
  {
    hide Enabled, Next, Conserved, PlacesOk, RequestsOk, HostsOk;
    StepShape(c, s, a);
    StepHeap(c, s, a);
    if a.Insert? {
      assert j in s.db.jobs || j == |s.jobs|;
    } else if a.Local? {
      StepKeepsInv(c, s, a);
      if !Untouching(s, Next(c, s, a), j) {
        HolderWrites(c, s, a, j);
        LocalPersists(c, s, a, j);
      }
    }
  }

  ghost predicate HeldBefore(run: Run, n: nat, j: JobId, state: JobStatus) {
    exists i :: 0 <= i <= n < |run.states| && j < |run.states[i].jobs| && run.states[i].jobs[j].state == state
  }

  /** A persisted state is one that the job had in memory at some moment up to now. */
  lemma {:induction false} PersistedStateWasHeld(c: Config, run: Run, n: nat, j: JobId)
    requires IsRun(c, run) && n < |run.states| && j in run.states[n].db.jobs
    ensures HeldBefore(run, n, j, run.states[n].db.jobs[j].state)
  {
    hide Enabled, Next, Inv;
    if n > 0 {
      RunKeepsInv(c, run, n - 1);
      StepPersists(c, run.states[n - 1], run.actions[n - 1], j);
      if run.states[n].db.jobs[j].state != run.states[n].jobs[j].state {
        PersistedStateWasHeld(c, run, n - 1, j);
        var i :| 0 <= i <= n - 1 && j < |run.states[i].jobs|
          && run.states[i].jobs[j].state == run.states[n].db.jobs[j].state;
      }
    }
  }

  lemma StepKeepsFlag(c: Config, s: State, a: Action, j: JobId)
    requires Inv(c, s) && Enabled(c, s, a) && j in s.db.jobs && s.db.jobs[j].isFailed
    ensures j in Next(c, s, a).db.jobs && Next(c, s, a).db.jobs[j].isFailed
  {
    hide Enabled, Next, Conserved, RequestsOk, HostsOk, WorkStep, WorkerLocal, RoutineLocal;
    if !Untouching(s, Next(c, s, a), j) {
      HolderWrites(c, s, a, j);
      assert JobOk(c, s.jobs[j], s.db, j, PhaseOf(s, PlaceOfAgent(a.agent), j));
      LocalSteps(c, s, a);
      if a.agent.WorkerAgent? {
        FlagOfFailing(c, s, a.agent.i, a.answer);
      } else {
        FlagOfErring(c, s, a.agent.i, a.answer);
      }
    }
  }

  lemma FlagOfFailing(c: Config, s: State, w: WorkerId, a: Answer)
    requires WorkerAsks(s, w, a)
    requires var j := s.workers[w].mode.job;
             j in s.db.jobs && s.db.jobs[j].isFailed && s.workers[w].mode.pc.Failing?
    ensures var j := s.workers[w].mode.job;
            j in WorkerLocal(c, s, w, a).db.jobs && WorkerLocal(c, s, w, a).db.jobs[j].isFailed
  {
  }

  lemma FlagOfErring(c: Config, s: State, r: nat, a: Answer)
    requires RoutineAsks(s, r, a)
    requires var j := s.routines[r].job; j in s.db.jobs && s.db.jobs[j].isFailed
    ensures var j := s.routines[r].job;
            j in RoutineLocal(c, s, r, a).db.jobs && RoutineLocal(c, s, r, a).db.jobs[j].isFailed
  {
  }

  lemma RowsStayOk(c: Config, run: Run, n: nat)
    requires IsRun(c, run) && n < |run.states|
    ensures RowsOk(run.states[n])
  {
    RunKeepsInv(c, run, n);
  }

  lemma FlagStaysOneStep(c: Config, run: Run, n: nat, j: JobId)
    requires IsRun(c, run) && n < |run.actions|
    requires j in run.states[n].db.jobs && run.states[n].db.jobs[j].isFailed
    ensures j in run.states[n + 1].db.jobs && run.states[n + 1].db.jobs[j].isFailed
  {
    hide Enabled, Next, Inv;
    RunKeepsInv(c, run, n);
    StepKeepsFlag(c, run.states[n], run.actions[n], j);
  }

  /** Once is_failed is persisted it stays, and so does the persisted state Failed. */
  lemma {:induction false} PersistedFailureStays(c: Config, run: Run, i: nat, n: nat, j: JobId)
    requires IsRun(c, run) && i <= n < |run.states|
    requires j in run.states[i].db.jobs && run.states[i].db.jobs[j].isFailed
    ensures j in run.states[n].db.jobs && run.states[n].db.jobs[j].isFailed && run.states[n].db.jobs[j].state == Failed
    decreases n
  {
    hide Enabled, Next;
    RowsStayOk(c, run, n);
    if i < n {
      PersistedFailureStays(c, run, i, n - 1, j);
      FlagStaysOneStep(c, run, n - 1, j);
    }
  }

  // ---- What is known of a port stays ----

  /** Over every run, retries and all, the vlan, port name and jun name of a job's port are each
      set at most once. */
  lemma {:induction false} PortIsSetOnce(c: Config, run: Run, i: nat, n: nat, j: JobId)
    requires IsRun(c, run) && i <= n < |run.states| && j < |run.states[i].jobs|
    ensures j < |run.states[n].jobs| && Keeps(run.states[i].jobs[j].port, run.states[n].jobs[j].port)
    decreases n
  {
    hide Enabled, Next;
    if i < n {
      PortIsSetOnce(c, run, i, n - 1, j);
      StepKeepsIdentity(c, run.states[n - 1], run.actions[n - 1], j);
    }
  }
}
