// Termination: with a positive retry limit, every run of the system between two requests
// is finite, and together with progress it ends with every job finished.
module QueueTermination {
  import opened Common
  import opened AppErrors
  import opened Ports
  import opened Jobs
  import opened Sums
  import opened Queue
  import opened QueueConservation
  import opened QueueTokens
  import opened QueueInvariant
  import opened QueueSteps
  import opened QueueProgress

  // ---- The measure ----

  /** More than a job's stage can rise when it fails. */
  function AttemptWeight(n: nat): nat {
    n + 20
  }

  function AttemptsLeft(n: nat): Job -> nat {
    (job: Job) => if |job.errors| < n then n - |job.errors| else 0
  }

  function FailRank(n: nat, f: FailPc): nat {
    match f
    case Requeue => 16
    case WriteFailedState => n + 4
    case WriteFailedFlag => n + 3
    case SaveError(k) => 2 + if k < n then n - k else 0
  }

  function WorkRank(n: nat, pc: WorkPc): nat {
    match pc
    case ParsePort => 7
    case FindHostJob => 6
    case WriteBlocked(_) => 5
    case FindHost(_) => 4
    case LinkHost(_) => 3
    case ResolveIpmi => 4
    case UpsertHost => 3
    case WriteDone => 2
    case UnknownAction => 2
    case Failing(f) => FailRank(n, f)
  }

  function WorkerRank(n: nat): Worker -> nat {
    (w: Worker) => 8 * |w.inbox| +
      match w.mode case Announcing => 1 case Waiting => 0 case Executing(_, pc) => WorkRank(n, pc)
  }

  function RoutineRank(n: nat): Routine -> nat {
    (r: Routine) =>
      match r.pc
      case WritePending => 13
      case Refused => 12
      case AwaitToken => 12
      case GotToken(_) => 11
      case Stored => 10
      case Bound(_) => 9
      case Erring(f) => FailRank(n, f)
      case Ended => 0
  }

  function SpecRank(n: nat): JobSpec -> nat {
    (spec: JobSpec) => AttemptWeight(n) * n + 16
  }

  function HandlerRank(n: nat): Handler -> nat {
    (h: Handler) => Sum(h.todo, SpecRank(n)) + 15 * |h.ready|
  }

  function Potential(n: nat, s: State): nat {
    AttemptWeight(n) * Sum(s.jobs, AttemptsLeft(n))
    + Sum(s.handlers, HandlerRank(n))
    + 14 * |s.jobQueue|
    + Sum(s.routines, RoutineRank(n))
    + Sum(s.workers, WorkerRank(n))
  }

  // ---- Every step lowers it ----

  lemma {:induction false} SumTail<T>(xs: seq<T>, f: T -> nat)
    requires xs != []
    ensures Sum(xs, f) == f(xs[0]) + Sum(xs[1..], f)
  {
    if |xs| > 1 {
      var init := xs[..|xs| - 1];
      SumTail(init, f);
      assert init[1..] == xs[1..][..|xs[1..]| - 1];
    }
  }

  lemma SendLowers(n: nat, s: State, a: Agent)
    requires CanSend(s, a)
    ensures Potential(n, DoSend(s, a)) < Potential(n, s)
  {
    match a
    case HandlerAgent(i) =>
      SumUpdate(s.handlers, i, s.handlers[i].(ready := s.handlers[i].ready[1..]), HandlerRank(n));
    case RoutineAgent(i) => SumUpdate(s.routines, i, s.routines[i].(pc := Ended), RoutineRank(n));
    case WorkerAgent(i) => SumUpdate(s.workers, i, s.workers[i].(mode := Announcing), WorkerRank(n));
  }

  lemma DispatchLowers(n: nat, s: State)
    requires s.jobQueue != []
    ensures Potential(n, DoDispatch(s)) < Potential(n, s)
  {
    SumAppend(s.routines, Routine(s.jobQueue[0], WritePending), RoutineRank(n));
  }

  lemma AnnounceLowers(n: nat, s: State, w: WorkerId)
    requires IsAnnouncing(s, w)
    ensures Potential(n, DoAnnounce(s, w)) < Potential(n, s)
  {
    SumUpdate(s.workers, w, s.workers[w].(mode := Waiting), WorkerRank(n));
  }

  lemma PcLowers(n: nat, s: State, s': State, r: nat, pc: RoutinePc)
    requires IsRoutine(s, r)
    requires s' == WithPc(s, r, pc).(pool := s'.pool, nextWorker := s'.nextWorker)
    requires RoutineRank(n)(s.routines[r].(pc := pc)) < RoutineRank(n)(s.routines[r])
    ensures Potential(n, s') < Potential(n, s)
  {
    SumUpdate(s.routines, r, s.routines[r].(pc := pc), RoutineRank(n));
  }

  lemma DeliverLowers(n: nat, s: State, r: nat)
    requires IsBound(s, r)
    ensures Potential(n, DoDeliver(s, r)) < Potential(n, s)
  {
    var w := s.routines[r].pc.target;
    SumUpdate(s.routines, r, s.routines[r].(pc := Ended), RoutineRank(n));
    SumUpdate(s.workers, w, DoDeliver(s, r).workers[w], WorkerRank(n));
  }

  lemma ReceiveLowers(n: nat, s: State, w: WorkerId)
    requires CanReceive(s, w) && s.workers[w].inbox[0] < |s.jobs|
    ensures Potential(n, DoReceive(s, w)) < Potential(n, s)
  {
    SumUpdate(s.workers, w, DoReceive(s, w).workers[w], WorkerRank(n));
  }

  lemma InsertLowersHandlers(n: nat, s: State, h: nat, reply: Reply)
    requires CanInsert(s, h)
    ensures Sum(DoInsert(s, h, reply).handlers, HandlerRank(n)) + AttemptWeight(n) * n < Sum(s.handlers, HandlerRank(n))
  {
    var hd, hd' := s.handlers[h], DoInsert(s, h, reply).handlers[h];
    SumUpdate(s.handlers, h, hd', HandlerRank(n));
    SumTail(hd.todo, SpecRank(n));
    assert HandlerRank(n)(hd') <= Sum(hd.todo[1..], SpecRank(n)) + 15 * |hd.ready| + 15;
  }

  lemma InsertLowers(n: nat, s: State, h: nat, reply: Reply)
    requires CanInsert(s, h)
    ensures Potential(n, DoInsert(s, h, reply)) < Potential(n, s)
  {
    InsertLowersHandlers(n, s, h, reply);
    var job := NewJob(h, s.handlers[h].todo[0]);
    SumAppend(s.jobs, job, AttemptsLeft(n));
    assert AttemptsLeft(n)(job) == n;
    Distribute(AttemptWeight(n), Sum(s.jobs, AttemptsLeft(n)), n);
  }

  lemma Distribute(k: nat, a: nat, b: nat)
    ensures k * (a + b) == k * a + k * b
  {
  }

  /** A step over a job either lowers its stage, or spends one of its attempts. */
  ghost predicate Lowers(n: nat, job: Job, rank: nat, job': Job, rank': nat) {
    || (job'.errors == job.errors && rank' < rank)
    || (|job'.errors| == |job.errors| + 1 && |job.errors| < n && rank' < AttemptWeight(n))
  }

  lemma JobLowers(n: nat, jobs: seq<Job>, j: JobId, job': Job, rank: nat, rank': nat)
    requires j < |jobs| && Lowers(n, jobs[j], rank, job', rank')
    ensures AttemptWeight(n) * Sum(jobs[j := job'], AttemptsLeft(n)) + rank'
          < AttemptWeight(n) * Sum(jobs, AttemptsLeft(n)) + rank
  {
    SumUpdate(jobs, j, job', AttemptsLeft(n));
    var before, after := Sum(jobs, AttemptsLeft(n)), Sum(jobs[j := job'], AttemptsLeft(n));
    if job'.errors == jobs[j].errors {
      assert before == after;
    } else {
      assert before == after + 1;
      Distribute(AttemptWeight(n), after, 1);
    }
  }

  lemma WorkStepLowers(c: Config, db: Db, j: JobId, job: Job, pc: WorkPc, a: Answer)
    requires c.maxFails >= 1 && WorkPcOk(c, job, db, j, pc) && Possible(db, j, job, pc, a)
    ensures var r := WorkStep(c.maxFails, c.rules, db, j, job, pc, a);
            match r.next
            case Continue(pc') => Lowers(c.maxFails, job, WorkRank(c.maxFails, pc), r.job, WorkRank(c.maxFails, pc'))
            case Return => Lowers(c.maxFails, job, WorkRank(c.maxFails, pc), r.job, 1)
            case Crash => true
  {
  }

  lemma WorkerLocalLowers(c: Config, s: State, w: WorkerId, a: Answer)
    requires c.maxFails >= 1 && Inv(c, s) && WorkerAsks(s, w, a)
    ensures Potential(c.maxFails, WorkerLocal(c, s, w, a)) < Potential(c.maxFails, s)
  {
    hide WorkStep, Possible, WorkPcOk, Balanced, TokensNameWorkers, RowsOk, RequestsOk, HostsOk;
    var n, s' := c.maxFails, WorkerLocal(c, s, w, a);
    var j, pc := s.workers[w].mode.job, s.workers[w].mode.pc;
    assert Holds(s, InWorker(w), j);
    assert WorkPcOk(c, s.jobs[j], s.db, j, pc);
    WorkStepLowers(c, s.db, j, s.jobs[j], pc, a);
    WorkerLocalKnown(c, s, w, a);
    var rank' := WorkerRank(n)(s'.workers[w].(inbox := []));
    JobLowers(n, s.jobs, j, s'.jobs[j], WorkRank(n, pc), rank');
    SumUpdate(s.workers, w, s'.workers[w], WorkerRank(n));
    assert s'.jobs == s.jobs[j := s'.jobs[j]];
  }

  lemma RoutineJobOk(c: Config, s: State, r: nat)
    requires Inv(c, s) && r < |s.routines| && s.routines[r].pc != Ended
    ensures var j := s.routines[r].job; j < |s.jobs| && JobOk(c, s.jobs[j], s.db, j, InDispatch(s.routines[r].pc))
  {
    assert Holds(s, InRoutine(r), s.routines[r].job);
  }

  lemma RoutineStepLowers(c: Config, s: State, r: nat, a: Answer)
    requires c.maxFails >= 1 && RoutineAsks(s, r, a)
    requires var j := s.routines[r].job; JobOk(c, s.jobs[j], s.db, j, InDispatch(s.routines[r].pc))
    ensures var n, s', j := c.maxFails, RoutineLocal(c, s, r, a), s.routines[r].job;
            Lowers(n, s.jobs[j], RoutineRank(n)(s.routines[r]), s'.jobs[j], RoutineRank(n)(s'.routines[r]))
  {
    hide Subsequence;
  }

  lemma RoutineLocalLowers(c: Config, s: State, r: nat, a: Answer)
    requires c.maxFails >= 1 && Inv(c, s) && RoutineAsks(s, r, a)
    ensures Potential(c.maxFails, RoutineLocal(c, s, r, a)) < Potential(c.maxFails, s)
  {
    hide Inv, JobOk, RoutineLocal, Lowers, RoutineRank, AttemptWeight, AttemptsLeft, HandlerRank, WorkerRank;
    var n, s' := c.maxFails, RoutineLocal(c, s, r, a);
    var j := s.routines[r].job;
    RoutineJobOk(c, s, r);
    RoutineStepLowers(c, s, r, a);
    RoutineLocalShape(c, s, r, a);
    assert s'.routines == s.routines[r := s'.routines[r]];
    JobLowers(n, s.jobs, j, s'.jobs[j], RoutineRank(n)(s.routines[r]), RoutineRank(n)(s'.routines[r]));
    SumUpdate(s.routines, r, s'.routines[r], RoutineRank(n));
    assert s'.jobs == s.jobs[j := s'.jobs[j]];
  }

  lemma StepLowers(c: Config, s: State, a: Action)
    requires c.maxFails >= 1 && Inv(c, s) && Enabled(c, s, a) && IsSystem(a)
    ensures Potential(c.maxFails, Next(c, s, a)) < Potential(c.maxFails, s)
  {
    hide Potential, PlacesOk, RowsOk, RequestsOk, HostsOk, Conserved, Balanced, TokensNameWorkers;
    var n := c.maxFails;
    match a
    case Insert(h, reply) => InsertLowers(n, s, h, reply);
    case Send(x) => SendLowers(n, s, x);
    case Handoff(x) => SendLowers(n, s, x); DispatchLowers(n, DoSend(s, x));
    case Dispatch => DispatchLowers(n, s);
    case Local(RoutineAgent(r), ans) => RoutineLocalLowers(c, s, r, ans);
    case Local(WorkerAgent(w), ans) => WorkerLocalLowers(c, s, w, ans);
    case Announce(w) => AnnounceLowers(n, s, w);
    case TakeToken(r) => PcLowers(n, s, Next(c, s, a), r, GotToken(s.pool[0]));
    case Meet(w, r) =>
      AnnounceLowers(n, s, w);
      PcLowers(n, DoAnnounce(s, w), Next(c, s, a), r, GotToken(DoAnnounce(s, w).pool[0]));
    case Store(r) => PcLowers(n, s, Next(c, s, a), r, Stored);
    case Bind(r) => PcLowers(n, s, Next(c, s, a), r, Bound(s.nextWorker.value));
    case Deliver(r) => DeliverLowers(n, s, r);
    case DeliverDirect(r) => DeliverLowers(n, s, r); ReceiveLowers(n, DoDeliver(s, r), s.routines[r].pc.target);
    case Receive(w) => ReceiveLowers(n, s, w);
  }

  // ---- Runs between requests ----

  /** The system can take these steps one after the other from `s`. */
  ghost predicate Follows(c: Config, s: State, actions: seq<Action>)
    decreases |actions|
  {
    actions == [] ||
    (IsSystem(actions[0]) && Enabled(c, s, actions[0]) && Follows(c, Next(c, s, actions[0]), actions[1..]))
  }

  ghost function After(c: Config, s: State, actions: seq<Action>): State
    requires Follows(c, s, actions)
    decreases |actions|
  {
    if actions == [] then s else After(c, Next(c, s, actions[0]), actions[1..])
  }

  lemma {:induction false} RunsAreBounded(c: Config, s: State, actions: seq<Action>)
    requires c.maxFails >= 1 && Inv(c, s) && Follows(c, s, actions)
    ensures |actions| + Potential(c.maxFails, After(c, s, actions)) <= Potential(c.maxFails, s)
    ensures Inv(c, After(c, s, actions))
    decreases |actions|
  {
    hide Potential, Enabled, Next, Inv;
    if actions != [] {
      StepLowers(c, s, actions[0]);
      StepKeepsInv(c, s, actions[0]);
      RunsAreBounded(c, Next(c, s, actions[0]), actions[1..]);
    }
  }

  /** From every reachable state the number of further steps is bounded by its potential. */
  lemma Terminates(c: Config, s: State, actions: seq<Action>)
    requires c.maxFails >= 1 && Reachable(c, s) && Follows(c, s, actions)
    ensures |actions| <= Potential(c.maxFails, s)
  {
    InvHolds(c, s);
    RunsAreBounded(c, s, actions);
  }

  /** Handlers create host jobs and port jobs and nothing else. */
  ghost predicate OnlyKnownActions(s: State) {
    forall job <- s.jobs :: job.action == HostCreate || job.action == RsviewParse
  }

  lemma StepKeepsActions(c: Config, s: State, a: Action)
    requires OnlyKnownActions(s) && Enabled(c, s, a)
    ensures OnlyKnownActions(Next(c, s, a))
  {
    var s' := Next(c, s, a);
    forall i | 0 <= i < |s'.jobs| ensures s'.jobs[i].action == HostCreate || s'.jobs[i].action == RsviewParse {
      if i < |s.jobs| {
        assert s.jobs[i] in s.jobs;
        StepKeepsIdentity(c, s, a, i);
      }
    }
  }

  lemma StepKeepsIdentity(c: Config, s: State, a: Action, j: JobId)
    requires Enabled(c, s, a) && j < |s.jobs|
    ensures var s' := Next(c, s, a);
            && j < |s'.jobs| && s'.jobs[j].action == s.jobs[j].action && s'.jobs[j].requestedBy == s.jobs[j].requestedBy
            && Keeps(s.jobs[j].port, s'.jobs[j].port)
  {
    hide Enabled, Next, WorkStep, WorkerLocal, RoutineLocal, Keeps;
    StepShape(c, s, a);
    PortKeepsItself(s.jobs[j].port);
    if a.Local? {
      LocalSteps(c, s, a);
      if a.agent.WorkerAgent? {
        var w := a.agent.i;
        var k := s.workers[w].mode.job;
        WorkerLocalShape(c, s, w, a.answer);
        WorkStepKeepsIdentity(c, s.db, k, s.jobs[k], s.workers[w].mode.pc, a.answer);
      } else {
        RoutineLocalShape(c, s, a.agent.i, a.answer);
      }
    }
  }

  lemma PortKeepsItself(port: Port)
    ensures Keeps(port, port)
  {
  }

  lemma WorkStepKeepsIdentity(c: Config, db: Db, j: JobId, job: Job, pc: WorkPc, a: Answer)
    requires Possible(db, j, job, pc, a)
    ensures var r := WorkStep(c.maxFails, c.rules, db, j, job, pc, a);
            && r.job.action == job.action && r.job.requestedBy == job.requestedBy
            && Keeps(job.port, r.job.port)
  {
    hide Attempt, FailStep, Answers;
    if pc.ParsePort? {
      AttemptKeeps(c.rules, job.port, ReadingOf(a.page, a.update));
    }
  }

  lemma {:induction false} RunKeepsActions(c: Config, run: Run, n: nat)
    requires IsRun(c, run) && n < |run.states|
    ensures OnlyKnownActions(run.states[n])
  {
    hide Enabled, Next;
    if n > 0 {
      RunKeepsActions(c, run, n - 1);
      StepKeepsActions(c, run.states[n - 1], run.actions[n - 1]);
    }
  }

  lemma {:induction false} FollowsIsReachable(c: Config, s: State, actions: seq<Action>)
    requires Reachable(c, s) && Follows(c, s, actions)
    ensures Reachable(c, After(c, s, actions))
    decreases |actions|
  {
    if actions != [] {
      NextIsReachable(c, s, actions[0]);
      FollowsIsReachable(c, Next(c, s, actions[0]), actions[1..]);
    }
  }

  /** How a submitted job ends. */
  ghost predicate EndedWell(c: Config, s: State, j: JobId)
    requires j < |s.jobs|
  {
    (s.jobs[j].state == Done && !s.jobs[j].isFailed) || HasFailed(c, s.jobs[j])
  }

  /** Job `j` is at an end, or was not submitted. */
  ghost predicate AtEnd(c: Config, s: State, j: JobId)
    requires j < |s.jobs|
  {
    || j in s.dropped
    || (j in s.retired && EndedWell(c, s, j))
    || exists i :: 0 <= i < |s.handlers| && j in s.handlers[i].ready
  }

  lemma FinishedState(c: Config, s: State)
    requires Reachable(c, s) && !Unfinished(s)
    ensures forall j :: 0 <= j < |s.jobs| ==> AtEnd(c, s, j)
  {
    InvHolds(c, s);
    JobsAreConserved(c, s);
    var run: Run :| IsRun(c, run) && run.states[|run.states| - 1] == s;
    RunKeepsActions(c, run, |run.states| - 1);
    forall j | 0 <= j < |s.jobs| ensures AtEnd(c, s, j) {
      assert Placed(s, j);
      var p :| Holds(s, p, j);
      assert p.IsRetired? || p.IsDropped? || p.InHandler?;
      assert s.jobs[j] in s.jobs;
    }
  }

  /** However the system moves from a reachable state, the queue comes to rest only when every
      job that was submitted is done, or failed with the limit of errors, whatever the
      handlers are about; and when the handlers rest as well, no job is left with them. */
  lemma RestMeansFinished(c: Config, s: State, actions: seq<Action>)
    requires 1 <= c.workers <= c.capacity + 1 && c.maxFails >= 1
    requires Reachable(c, s) && Follows(c, s, actions) && !CanMove(c, After(c, s, actions))
    ensures |actions| <= Potential(c.maxFails, s)
    ensures var s' := After(c, s, actions);
            forall j :: 0 <= j < |s'.jobs| ==> AtEnd(c, s', j)
    ensures var s' := After(c, s, actions);
            (forall a :: IsSystem(a) ==> !Enabled(c, s', a)) ==> forall i: nat :: !IsBusy(s', i)
  {
    Terminates(c, s, actions);
    FollowsIsReachable(c, s, actions);
    var s' := After(c, s, actions);
    if Unfinished(s') {
      Progress(c, s');
    }
    FinishedState(c, s');
    forall i: nat | IsBusy(s', i) ensures exists a :: IsSystem(a) && Enabled(c, s', a) {
      HandlerProgress(c, s', i);
      assert forall a :: IsHandlerStep(a, i) ==> IsSystem(a);
      assert IsSystem(Dispatch);
    }
  }
}
