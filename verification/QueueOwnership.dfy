// Ownership, the retry bound, and what the database may say: facts of single states and
// of single steps.
module QueueOwnership {
  import opened Common
  import opened AppErrors
  import opened Ports
  import opened Jobs
  import opened Queue
  import opened QueueConservation
  import opened QueueInvariant
  import opened QueueSteps
  import opened QueueTermination

  // ---- Single ownership ----

  function PlaceOfAgent(x: Agent): Place {
    match x
    case HandlerAgent(i) => InHandler(i)
    case RoutineAgent(i) => InRoutine(i)
    case WorkerAgent(i) => InWorker(i)
  }

  predicate HeldBy(s: State, x: Agent, j: JobId) {
    Holds(s, PlaceOfAgent(x), j)
  }

  /** The step leaves job `j` and the rows that concern it alone. */
  ghost predicate Untouching(s: State, s': State, j: JobId) {
    && j < |s.jobs| && j < |s'.jobs|
    && s'.jobs[j] == s.jobs[j]
    && (j in s'.db.jobs <==> j in s.db.jobs)
    && (j in s.db.jobs ==> s'.db.jobs[j] == s.db.jobs[j])
    && s'.db.Saved(j) == s.db.Saved(j)
  }

  lemma WorkerTouchesOwn(c: Config, s: State, w: WorkerId, a: Answer, j: JobId)
    requires Inv(c, s) && WorkerAsks(s, w, a) && j < |s.jobs| && j != s.workers[w].mode.job
    ensures Untouching(s, WorkerLocal(c, s, w, a), j)
  {
    var j0 := s.workers[w].mode.job;
    assert Holds(s, InWorker(w), j0);
    if s.workers[w].mode.pc == FindHostJob {
      assert HasHostRow(s.db, s.jobs[j0].requestedBy);
    }
    WorkStepOk(c, s.db, j0, s.jobs[j0], s.workers[w].mode.pc, a);
    WorkerFrame(c, s, w, a);
  }

  lemma RoutineTouchesOwn(c: Config, s: State, r: nat, a: Answer, j: JobId)
    requires RoutineAsks(s, r, a) && j < |s.jobs| && j != s.routines[r].job
    ensures Untouching(s, RoutineLocal(c, s, r, a), j)
  {
  }

  /** A step that changes a job, its row or its saved errors is a step of the goroutine
      that holds the job. */
  lemma OnlyTheHolderWrites(c: Config, s: State, a: Action, j: JobId)
    requires Reachable(c, s) && Enabled(c, s, a) && j < |s.jobs|
    requires !Untouching(s, Next(c, s, a), j)
    ensures a.Local? && HeldBy(s, a.agent, j)
  {
    InvHolds(c, s);
    HolderWrites(c, s, a, j);
  }

  lemma HolderWrites(c: Config, s: State, a: Action, j: JobId)
    requires Inv(c, s) && Enabled(c, s, a) && j < |s.jobs|
    requires !Untouching(s, Next(c, s, a), j)
    ensures a.Local? && HeldBy(s, a.agent, j)
  {
    hide Enabled, Next, PlacesOk, RowsOk, RequestsOk, HostsOk, Conserved, WorkerLocal, RoutineLocal;
    StepShape(c, s, a);
    if a.Insert? {
      InsertTouchesNew(c, s, a.h, a.reply, j);
    } else if a.Local? {
      LocalSteps(c, s, a);
      if a.agent.RoutineAgent? && j != s.routines[a.agent.i].job {
        RoutineTouchesOwn(c, s, a.agent.i, a.answer, j);
      } else if a.agent.WorkerAgent? && j != s.workers[a.agent.i].mode.job {
        WorkerTouchesOwn(c, s, a.agent.i, a.answer, j);
      }
    }
  }

  lemma InsertTouchesNew(c: Config, s: State, h: nat, reply: Reply, j: JobId)
    requires CanInsert(s, h) && j < |s.jobs|
    ensures Untouching(s, DoInsert(s, h, reply), j)
  {
  }

  /** The job an action hands on, and where to. */
  ghost function Handed(c: Config, s: State, a: Action): Option<(JobId, Place)>
    requires Enabled(c, s, a)
  {
    match a
    case Send(x) => Some((Carried(s, x), InQueue))
    case Handoff(x) => Some((Carried(s, x), InRoutine(|s.routines|)))
    case Dispatch => Some((s.jobQueue[0], InRoutine(|s.routines|)))
    case Deliver(r) => Some((s.routines[r].job, InInbox(s.routines[r].pc.target)))
    case DeliverDirect(r) => Some((s.routines[r].job, InWorker(s.routines[r].pc.target)))
    case Receive(w) => Some((s.workers[w].inbox[0], InWorker(w)))
    case _ => None
  }

  lemma HandedIsThere(c: Config, s: State, a: Action)
    requires Enabled(c, s, a) && Handed(c, s, a).Some?
    ensures var (j, to) := Handed(c, s, a).value; Holds(Next(c, s, a), to, j)
  {
    hide WorkerAsks, RoutineAsks;
  }

  /** A job that is handed on is at its new place and nowhere else, so whoever had it no
      longer holds it and, by OnlyTheHolderWrites, no longer writes it. */
  lemma HandingOnLetsGo(c: Config, s: State, a: Action)
    requires Reachable(c, s) && Enabled(c, s, a) && Handed(c, s, a).Some?
    ensures var (j, to) := Handed(c, s, a).value;
            && Holds(Next(c, s, a), to, j)
            && forall p :: Holds(Next(c, s, a), p, j) ==> p == to
  {
    InvHolds(c, s);
    StepKeepsInv(c, s, a);
    hide Enabled, Next, Inv, Handed;
    var s' := Next(c, s, a);
    var (j, to) := Handed(c, s, a).value;
    HandedIsThere(c, s, a);
    forall p | Holds(s', p, j) ensures p == to {
      AtMostOnePlace(s', p, to, j);
    }
  }

  // ---- The retry bound ----

  /** The job is on its way to another attempt or in the middle of one. */
  ghost predicate Attempting(s: State, p: Place, j: JobId) {
    && Holds(s, p, j)
    && match p
       case InHandler(_) => true
       case InQueue => true
       case InInbox(_) => true
       case InRoutine(r) => s.routines[r].pc.Erring? ==> s.routines[r].pc.f.Requeue?
       case InWorker(w) => s.workers[w].mode.pc.Failing? ==> s.workers[w].mode.pc.pc.Requeue?
       case _ => false
  }

  /** With a limit of N errors a job that is attempted has fewer than N, and it is failed
      exactly when it has N, in its flag and in its state alike. */
  lemma RetryBound(c: Config, s: State, j: JobId)
    requires Reachable(c, s) && c.maxFails >= 1 && j < |s.jobs|
    ensures |s.jobs[j].errors| <= c.maxFails
    ensures s.jobs[j].isFailed <==> |s.jobs[j].errors| == c.maxFails
    ensures s.jobs[j].isFailed <==> s.jobs[j].state == Failed
    ensures forall p :: Attempting(s, p, j) ==> |s.jobs[j].errors| < c.maxFails
  {
    InvHolds(c, s);
    JobsAreConserved(c, s);
    assert Placed(s, j);
    var p :| Holds(s, p, j);
    assert JobOk(c, s.jobs[j], s.db, j, PhaseOf(s, p, j));
    forall q | Attempting(s, q, j) ensures |s.jobs[j].errors| < c.maxFails {
      assert JobOk(c, s.jobs[j], s.db, j, PhaseOf(s, q, j));
    }
  }

  // ---- What the database says ----

  /** A row of the errors table names only a failed job, and for each of its errors at most
      one row is there, in the order they happened; a row marked failed is in state Failed;
      Failed and Done are persisted only of jobs that are. */
  lemma DatabaseIsSound(c: Config, s: State, j: JobId)
    requires Reachable(c, s)
    ensures s.db.Saved(j) != [] ==>
              && j < |s.jobs| && s.jobs[j].isFailed
              && Subsequence(s.db.Saved(j), s.jobs[j].errors)
              && |s.db.Saved(j)| <= c.maxFails
    ensures j in s.db.jobs ==>
              && j < |s.jobs|
              && (s.db.jobs[j].isFailed ==> s.db.jobs[j].state == Failed)
              && (s.db.jobs[j].state == Failed ==> s.jobs[j].isFailed)
              && (s.db.jobs[j].state == Done ==> s.jobs[j].state == Done)
  {
    InvHolds(c, s);
    JobsAreConserved(c, s);
    if j < |s.jobs| {
      assert Placed(s, j);
      var p :| Holds(s, p, j);
      assert JobOk(c, s.jobs[j], s.db, j, PhaseOf(s, p, j));
      if s.db.Saved(j) != [] {
        SavedOfFailed(c, s.jobs[j], s.db, j, PhaseOf(s, p, j));
        SubsequenceIsShorter(s.db.Saved(j), s.jobs[j].errors);
      }
    }
  }

  lemma SavedOfFailed(c: Config, job: Job, db: Db, j: JobId, phase: Phase)
    requires JobOk(c, job, db, j, phase) && db.Saved(j) != []
    ensures HasFailed(c, job) && Subsequence(db.Saved(j), job.errors)
  {
    var f := if phase.InDispatch? && phase.rpc.Erring? then Some(phase.rpc.f)
             else if phase.InWork? && phase.wpc.Failing? then Some(phase.wpc.pc) else None;
    if f.Some? && f.value.SaveError? {
      SubsequenceOfPrefix(db.Saved(j), job.errors, f.value.k);
    }
  }

  lemma {:induction false} SubsequenceOfPrefix<T>(a: seq<T>, b: seq<T>, k: nat)
    requires k <= |b| && Subsequence(a, b[..k])
    ensures Subsequence(a, b)
    decreases |b| - k
  {
    if k == |b| {
      assert b[..k] == b;
    } else {
      assert b[..k + 1] == b[..k] + [b[k]];
      SubsequenceGrows(a, b[..k], b[k]);
      SubsequenceOfPrefix(a, b, k + 1);
    }
  }

  // ---- The host job of a request ----

  /** Every port job has exactly one host job row for its request, the look-up of it answers
      that row or fails, and the process never runs into a missing one. */
  lemma HostJobIsFound(c: Config, s: State)
    requires Reachable(c, s)
    ensures !s.crashed
    ensures forall j :: 0 <= j < |s.jobs| && s.jobs[j].action == RsviewParse ==>
              HasHostRow(s.db, s.jobs[j].requestedBy)
    ensures forall r, g, h :: IsHostJobRow(s.db, r, g) && IsHostJobRow(s.db, r, h) ==> g == h
    ensures forall w: nat, found :: WorkerAsks(s, w, JobRows(found)) && s.workers[w].mode.pc == FindHostJob ==>
              found.QueryFailed? ||
              (found.OneRow? && IsHostJobRow(s.db, s.jobs[s.workers[w].mode.job].requestedBy, found.row))
  {
    InvHolds(c, s);
    forall w: nat, found | WorkerAsks(s, w, JobRows(found)) && s.workers[w].mode.pc == FindHostJob
      ensures found.QueryFailed? ||
              (found.OneRow? && IsHostJobRow(s.db, s.jobs[s.workers[w].mode.job].requestedBy, found.row))
    {
      var j := s.workers[w].mode.job;
      var r := s.jobs[j].requestedBy;
      assert Holds(s, InWorker(w), j);
      assert WorkPcOk(c, s.jobs[j], s.db, j, FindHostJob);
      assert HasHostRow(s.db, r);
      var g: JobId :| IsHostJobRow(s.db, r, g);
      assert HostJobRows(s.db, r)(g);
    }
  }
}
