// Conservation: in every reachable state each job is in exactly one place.
module QueueConservation {
  import opened Common
  import opened Jobs
  import opened Sums
  import opened Queue

  // ---- Counting the places that hold a job ----

  function Times(js: seq<JobId>, j: JobId): nat {
    multiset(js)[j]
  }

  function HandlerHolds(j: JobId): Handler -> nat {
    (h: Handler) => Times(h.ready, j)
  }

  function RoutineHolds(j: JobId): Routine -> nat {
    (r: Routine) => if r.pc != Ended && r.job == j then 1 else 0
  }

  function WorkerHolds(j: JobId): Worker -> nat {
    (w: Worker) => Times(w.inbox, j) + if w.mode.Executing? && w.mode.job == j then 1 else 0
  }

  function Count(s: State, j: JobId): nat {
    Sum(s.handlers, HandlerHolds(j)) + Times(s.jobQueue, j) + Sum(s.routines, RoutineHolds(j))
    + Sum(s.workers, WorkerHolds(j)) + Times(s.retired, j) + Times(s.dropped, j)
  }

  ghost predicate Conserved(s: State) {
    forall j: JobId :: Count(s, j) == if j < |s.jobs| then 1 else 0
  }

  lemma TimesSplit(js: seq<JobId>, j: JobId)
    requires js != []
    ensures Times(js, j) == Times(js[1..], j) + if js[0] == j then 1 else 0
  {
    assert js == [js[0]] + js[1..];
  }

  lemma TimesConcat(a: seq<JobId>, b: seq<JobId>, j: JobId)
    ensures Times(a + b, j) == Times(a, j) + Times(b, j)
  {
  }

  lemma TimesMember(js: seq<JobId>, j: JobId)
    ensures Times(js, j) > 0 <==> j in js
  {
  }

  // ---- Each step keeps every count ----

  lemma ReleaseCounts(s: State, a: Agent, j: JobId)
    requires CanSend(s, a)
    ensures Count(Released(s, a), j) + (if Carried(s, a) == j then 1 else 0) == Count(s, j)
  {
    match a
    case HandlerAgent(i) =>
      var h := s.handlers[i];
      SumUpdate(s.handlers, i, h.(ready := h.ready[1..]), HandlerHolds(j));
      TimesSplit(h.ready, j);
    case RoutineAgent(i) =>
      SumUpdate(s.routines, i, s.routines[i].(pc := Ended), RoutineHolds(j));
    case WorkerAgent(i) =>
      SumUpdate(s.workers, i, s.workers[i].(mode := Announcing), WorkerHolds(j));
  }

  lemma SendCounts(s: State, a: Agent, j: JobId)
    requires CanSend(s, a)
    ensures Count(DoSend(s, a), j) == Count(s, j)
  {
    ReleaseCounts(s, a, j);
    TimesConcat(s.jobQueue, [Carried(s, a)], j);
  }

  lemma DispatchCounts(s: State, j: JobId)
    requires s.jobQueue != []
    ensures Count(DoDispatch(s), j) == Count(s, j)
  {
    TimesSplit(s.jobQueue, j);
    SumAppend(s.routines, Routine(s.jobQueue[0], WritePending), RoutineHolds(j));
  }

  lemma AnnounceCounts(s: State, w: WorkerId, j: JobId)
    requires IsAnnouncing(s, w)
    ensures Count(DoAnnounce(s, w), j) == Count(s, j)
  {
    SumUpdate(s.workers, w, s.workers[w].(mode := Waiting), WorkerHolds(j));
  }

  lemma WithPcCounts(s: State, r: nat, pc: RoutinePc, j: JobId)
    requires IsRoutine(s, r) && s.routines[r].pc != Ended
    ensures Count(WithPc(s, r, pc), j) + (if pc == Ended && s.routines[r].job == j then 1 else 0) == Count(s, j)
  {
    SumUpdate(s.routines, r, s.routines[r].(pc := pc), RoutineHolds(j));
  }

  lemma DeliverCounts(s: State, r: nat, j: JobId)
    requires IsBound(s, r)
    ensures Count(DoDeliver(s, r), j) == Count(s, j)
  {
    var w := s.routines[r].pc.target;
    var worker := s.workers[w];
    WithPcCounts(s, r, Ended, j);
    SumUpdate(s.workers, w, worker.(inbox := worker.inbox + [s.routines[r].job]), WorkerHolds(j));
    TimesConcat(worker.inbox, [s.routines[r].job], j);
  }

  lemma ReceiveCounts(s: State, w: WorkerId, j: JobId)
    requires CanReceive(s, w) && s.workers[w].inbox[0] < |s.jobs|
    ensures Count(DoReceive(s, w), j) == Count(s, j)
  {
    SumUpdate(s.workers, w, DoReceive(s, w).workers[w], WorkerHolds(j));
    TimesSplit(s.workers[w].inbox, j);
  }

  lemma NewRequestCounts(s: State, macs: seq<string>, j: JobId)
    ensures Count(DoNewRequest(s, macs), j) == Count(s, j)
  {
    SumAppend(s.handlers, Handler(macs, [HostJob] + Specs(macs), []), HandlerHolds(j));
  }

  lemma InsertCounts(s: State, h: nat, reply: Reply, j: JobId)
    requires CanInsert(s, h)
    ensures Count(DoInsert(s, h, reply), j) == Count(s, j) + if j == |s.jobs| then 1 else 0
  {
    var hd, j0 := s.handlers[h], |s.jobs|;
    if reply.Acked() {
      SumUpdate(s.handlers, h, hd.(todo := hd.todo[1..], ready := hd.ready + [j0]), HandlerHolds(j));
      TimesConcat(hd.ready, [j0], j);
    } else {
      SumUpdate(s.handlers, h, hd.(todo := [], ready := []), HandlerHolds(j));
      TimesConcat(s.dropped + hd.ready, [j0], j);
      TimesConcat(s.dropped, hd.ready, j);
    }
  }

  lemma RoutineLocalCounts(c: Config, s: State, r: nat, a: Answer, j: JobId)
    requires RoutineAsks(s, r, a)
    ensures Count(RoutineLocal(c, s, r, a), j) == Count(s, j)
  {
    hide FailStep;
    var s' := RoutineLocal(c, s, r, a);
    WithPcCounts(s, r, s'.routines[r].pc, j);
    TimesConcat(s.retired, [s.routines[r].job], j);
  }

  lemma WorkerLocalCounts(c: Config, s: State, w: WorkerId, a: Answer, j: JobId)
    requires WorkerAsks(s, w, a)
    ensures Count(WorkerLocal(c, s, w, a), j) == Count(s, j)
  {
    hide WorkStep, Possible;
    var s' := WorkerLocal(c, s, w, a);
    SumUpdate(s.workers, w, s'.workers[w], WorkerHolds(j));
    TimesConcat(s.retired, [s.workers[w].mode.job], j);
  }

  lemma TokenCounts(c: Config, s: State, a: Action, j: JobId)
    requires Enabled(c, s, a) && IsTokenStep(a)
    ensures Count(Next(c, s, a), j) == Count(s, j)
  {
    hide WorkerAsks, RoutineAsks;
    match a
    case Announce(w) => AnnounceCounts(s, w, j);
    case TakeToken(r) => WithPcCounts(s, r, GotToken(s.pool[0]), j);
    case Meet(w, r) =>
      AnnounceCounts(s, w, j);
      WithPcCounts(DoAnnounce(s, w), r, GotToken(DoAnnounce(s, w).pool[0]), j);
    case Store(r) => WithPcCounts(s, r, Stored, j);
    case Bind(r) => WithPcCounts(s, r, Bound(s.nextWorker.value), j);
  }

  lemma StepCounts(c: Config, s: State, a: Action, j: JobId)
    requires Enabled(c, s, a)
    ensures Count(Next(c, s, a), j) == Count(s, j) + if a.Insert? && j == |s.jobs| then 1 else 0
  {
    hide WorkStep, FailStep, WorkerLocal, RoutineLocal, WorkerAsks, RoutineAsks, Count;
    match a
    case NewRequest(macs) => NewRequestCounts(s, macs, j);
    case Insert(h, reply) => InsertCounts(s, h, reply, j);
    case Send(x) => SendCounts(s, x, j);
    case Handoff(x) => SendCounts(s, x, j); DispatchCounts(DoSend(s, x), j);
    case Dispatch => DispatchCounts(s, j);
    case Local(RoutineAgent(r), ans) => RoutineLocalCounts(c, s, r, ans, j);
    case Local(WorkerAgent(w), ans) => WorkerLocalCounts(c, s, w, ans, j);
    case Deliver(r) => DeliverCounts(s, r, j);
    case DeliverDirect(r) =>
      DeliverCounts(s, r, j);
      ReceiveCounts(DoDeliver(s, r), s.routines[r].pc.target, j);
    case Receive(w) => ReceiveCounts(s, w, j);
    case _ => TokenCounts(c, s, a, j);
  }

  /** The heap grows by one job at an insertion and never otherwise. */
  lemma StepHeap(c: Config, s: State, a: Action)
    requires Enabled(c, s, a)
    ensures |Next(c, s, a).jobs| == |s.jobs| + if a.Insert? then 1 else 0
  {
  }

  lemma StepConserves(c: Config, s: State, a: Action)
    requires Conserved(s) && Enabled(c, s, a)
    ensures Conserved(Next(c, s, a))
  {
    var s' := Next(c, s, a);
    StepHeap(c, s, a);
    forall j: JobId ensures Count(s', j) == if j < |s'.jobs| then 1 else 0 {
      StepCounts(c, s, a, j);
      assert Count(s, j) == if j < |s.jobs| then 1 else 0;
    }
  }

  lemma {:induction false} SumOfNothing(n: nat, j: JobId)
    ensures Sum(seq(n, _ => Worker([], Announcing)), WorkerHolds(j)) == 0
  {
    var ws := seq(n, _ => Worker([], Announcing));
    if n > 0 {
      assert ws[..n - 1] == seq(n - 1, _ => Worker([], Announcing));
      SumOfNothing(n - 1, j);
    }
  }

  lemma InitConserves(c: Config)
    ensures Conserved(Init(c))
  {
    forall j: JobId ensures Count(Init(c), j) == 0 {
      SumOfNothing(c.workers, j);
    }
  }

  // ---- Places ----

  datatype Place =
    | InHandler(i: nat)
    | InQueue
    | InRoutine(r: nat)
    | InInbox(w: nat)
    | InWorker(w: nat)
    | IsRetired
    | IsDropped

  predicate Holds(s: State, p: Place, j: JobId) {
    match p
    case InHandler(i) => i < |s.handlers| && j in s.handlers[i].ready
    case InQueue => j in s.jobQueue
    case InRoutine(r) => r < |s.routines| && s.routines[r].pc != Ended && s.routines[r].job == j
    case InInbox(w) => w < |s.workers| && j in s.workers[w].inbox
    case InWorker(w) => w < |s.workers| && s.workers[w].mode.Executing? && s.workers[w].mode.job == j
    case IsRetired => j in s.retired
    case IsDropped => j in s.dropped
  }

  lemma HoldsCounts(s: State, p: Place, j: JobId)
    requires Holds(s, p, j)
    ensures Count(s, j) > 0
  {
    match p
    case InHandler(i) => SumAtLeast(s.handlers, i, HandlerHolds(j)); TimesMember(s.handlers[i].ready, j);
    case InRoutine(r) => SumAtLeast(s.routines, r, RoutineHolds(j));
    case InInbox(w) => SumAtLeast(s.workers, w, WorkerHolds(j)); TimesMember(s.workers[w].inbox, j);
    case InWorker(w) => SumAtLeast(s.workers, w, WorkerHolds(j));
    case _ =>
  }

  lemma SameKind(s: State, p: Place, q: Place, j: JobId)
    requires Holds(s, p, j) && Holds(s, q, j) && Count(s, j) == 1
    requires (p.InHandler? && q.InHandler?) || (p.InRoutine? && q.InRoutine?)
          || ((p.InInbox? || p.InWorker?) && (q.InInbox? || q.InWorker?))
    ensures p == q
  {
    if p.InHandler? {
      TimesMember(s.handlers[p.i].ready, j);
      TimesMember(s.handlers[q.i].ready, j);
      if p.i != q.i {
        SumAtLeastTwo(s.handlers, if p.i < q.i then p.i else q.i, if p.i < q.i then q.i else p.i, HandlerHolds(j));
      }
    } else if p.InRoutine? {
      if p.r != q.r {
        SumAtLeastTwo(s.routines, if p.r < q.r then p.r else q.r, if p.r < q.r then q.r else p.r, RoutineHolds(j));
      }
    } else {
      TimesMember(s.workers[p.w].inbox, j);
      TimesMember(s.workers[q.w].inbox, j);
      if p.w != q.w {
        SumAtLeastTwo(s.workers, if p.w < q.w then p.w else q.w, if p.w < q.w then q.w else p.w, WorkerHolds(j));
      } else {
        SumAtLeast(s.workers, p.w, WorkerHolds(j));
      }
    }
  }

  /** No two places hold the same job. */
  lemma AtMostOnePlace(s: State, p: Place, q: Place, j: JobId)
    requires Conserved(s)
    requires Holds(s, p, j) && Holds(s, q, j)
    ensures p == q && j < |s.jobs|
  {
    HoldsCounts(s, p, j);
    assert Count(s, j) == if j < |s.jobs| then 1 else 0;
    if (p.InHandler? && q.InHandler?) || (p.InRoutine? && q.InRoutine?)
       || ((p.InInbox? || p.InWorker?) && (q.InInbox? || q.InWorker?)) {
      SameKind(s, p, q, j);
    } else {
      PartHeld(s, p, j);
      PartHeld(s, q, j);
    }
  }

  /** A place that holds a job shows in its own term of the count. */
  lemma PartHeld(s: State, p: Place, j: JobId)
    requires Holds(s, p, j)
    ensures match p
            case InHandler(_) => Sum(s.handlers, HandlerHolds(j)) > 0
            case InQueue => Times(s.jobQueue, j) > 0
            case InRoutine(_) => Sum(s.routines, RoutineHolds(j)) > 0
            case InInbox(_) => Sum(s.workers, WorkerHolds(j)) > 0
            case InWorker(_) => Sum(s.workers, WorkerHolds(j)) > 0
            case IsRetired => Times(s.retired, j) > 0
            case IsDropped => Times(s.dropped, j) > 0
  {
    match p
    case InHandler(i) => SumAtLeast(s.handlers, i, HandlerHolds(j)); TimesMember(s.handlers[i].ready, j);
    case InRoutine(r) => SumAtLeast(s.routines, r, RoutineHolds(j));
    case InInbox(w) => SumAtLeast(s.workers, w, WorkerHolds(j)); TimesMember(s.workers[w].inbox, j);
    case InWorker(w) => SumAtLeast(s.workers, w, WorkerHolds(j));
    case _ =>
  }

  lemma SomePlace(s: State, j: JobId) returns (p: Place)
    requires Count(s, j) > 0
    ensures Holds(s, p, j)
  {
    if Sum(s.handlers, HandlerHolds(j)) > 0 {
      var i := SumWitness(s.handlers, HandlerHolds(j));
      TimesMember(s.handlers[i].ready, j);
      p := InHandler(i);
    } else if Times(s.jobQueue, j) > 0 {
      p := InQueue;
    } else if Sum(s.routines, RoutineHolds(j)) > 0 {
      var r := SumWitness(s.routines, RoutineHolds(j));
      p := InRoutine(r);
    } else if Sum(s.workers, WorkerHolds(j)) > 0 {
      var w := SumWitness(s.workers, WorkerHolds(j));
      TimesMember(s.workers[w].inbox, j);
      p := if j in s.workers[w].inbox then InInbox(w) else InWorker(w);
    } else {
      p := if Times(s.retired, j) > 0 then IsRetired else IsDropped;
    }
  }

  /** Every channel, list and mailbox holds a job at most once. */
  ghost predicate Distinct(js: seq<JobId>) {
    forall i, k :: 0 <= i < k < |js| ==> js[i] != js[k]
  }

  lemma TwiceCounts(js: seq<JobId>, i: nat, k: nat)
    requires i < k < |js| && js[i] == js[k]
    ensures Times(js, js[i]) >= 2
  {
    assert js == js[..i] + [js[i]] + js[i + 1..k] + [js[k]] + js[k + 1..];
  }

  lemma TimesAtMostOnce(js: seq<JobId>)
    requires forall j :: Times(js, j) <= 1
    ensures Distinct(js)
  {
    forall i, k | 0 <= i < k < |js| && js[i] == js[k] ensures false {
      TwiceCounts(js, i, k);
    }
  }

  lemma InboxesDistinct(s: State, w: nat)
    requires Conserved(s) && w < |s.workers|
    ensures Distinct(s.workers[w].inbox)
  {
    forall j: JobId ensures Times(s.workers[w].inbox, j) <= 1 {
      SumAtLeast(s.workers, w, WorkerHolds(j));
      assert Count(s, j) <= 1;
    }
    TimesAtMostOnce(s.workers[w].inbox);
  }

  lemma QueueDistinct(s: State)
    requires Conserved(s)
    ensures Distinct(s.jobQueue)
  {
    forall j: JobId ensures Times(s.jobQueue, j) <= 1 {
      assert Count(s, j) <= 1;
    }
    TimesAtMostOnce(s.jobQueue);
  }

  ghost predicate Placed(s: State, j: JobId) {
    exists p :: Holds(s, p, j)
  }

  /** Conservation, for every reachable state: each job is in exactly one place, places
      hold nothing but jobs, and no channel holds a job twice. */
  lemma JobsAreConserved(c: Config, s: State)
    requires Reachable(c, s)
    ensures Conserved(s)
    ensures forall j: JobId :: Placed(s, j) <==> j < |s.jobs|
    ensures forall p, q, j :: Holds(s, p, j) && Holds(s, q, j) ==> p == q
    ensures Distinct(s.jobQueue) && forall w :: 0 <= w < |s.workers| ==> Distinct(s.workers[w].inbox)
  {
    var run: Run :| IsRun(c, run) && run.states[|run.states| - 1] == s;
    RunConserves(c, run, |run.states| - 1);
    forall j: JobId ensures Placed(s, j) <==> j < |s.jobs| {
      assert Count(s, j) == if j < |s.jobs| then 1 else 0;
      if j < |s.jobs| {
        var p := SomePlace(s, j);
        assert Holds(s, p, j);
      } else if p :| Holds(s, p, j) {
        HoldsCounts(s, p, j);
      }
    }
    forall p, q, j | Holds(s, p, j) && Holds(s, q, j) ensures p == q {
      AtMostOnePlace(s, p, q, j);
    }
    QueueDistinct(s);
    forall w | 0 <= w < |s.workers| ensures Distinct(s.workers[w].inbox) {
      InboxesDistinct(s, w);
    }
  }

  lemma {:induction false} RunConserves(c: Config, run: Run, n: nat)
    requires IsRun(c, run) && n < |run.states|
    ensures Conserved(run.states[n])
  {
    hide Enabled, Next, Conserved;
    if n == 0 {
      InitConserves(c);
    } else {
      RunConserves(c, run, n - 1);
      StepConserves(c, run.states[n - 1], run.actions[n - 1]);
    }
  }
}
