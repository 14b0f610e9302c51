// The counting invariant: the inbox tokens in the pool, the goroutines that took one
// and have not delivered yet, and the jobs lying in inboxes are together as many as the
// workers at their select. It holds although nextWorker is shared, so that a token may
// be overwritten and two jobs may land in one inbox.
module QueueTokens {
  import opened Common
  import opened Jobs
  import opened Sums
  import opened Queue

  function HoldsToken(r: Routine): nat {
    if r.pc.GotToken? || r.pc.Stored? || r.pc.Bound? then 1 else 0
  }

  function InboxLength(w: Worker): nat {
    |w.inbox|
  }

  function AtSelect(w: Worker): nat {
    if w.mode == Waiting then 1 else 0
  }

  ghost predicate Balanced(s: State) {
    |s.pool| + Sum(s.routines, HoldsToken) + Sum(s.workers, InboxLength) == Sum(s.workers, AtSelect)
  }

  /** Tokens name workers, and a goroutine that stored its token left some token stored. */
  ghost predicate TokensNameWorkers(c: Config, s: State) {
    && |s.workers| == c.workers
    && (forall w <- s.pool :: w < c.workers)
    && (s.nextWorker.Some? ==> s.nextWorker.value < c.workers)
    && (forall r :: 0 <= r < |s.routines| ==> PcNamesWorker(c, s.nextWorker, s.routines[r].pc))
  }

  ghost predicate PcNamesWorker(c: Config, next: Option<WorkerId>, pc: RoutinePc) {
    && (pc.GotToken? ==> pc.token < c.workers)
    && (pc.Stored? ==> next.Some?)
    && (pc.Bound? ==> pc.target < c.workers)
  }

  lemma WithPcBalance(s: State, r: nat, pc: RoutinePc)
    requires IsRoutine(s, r)
    ensures Sum(WithPc(s, r, pc).routines, HoldsToken) + HoldsToken(s.routines[r])
         == Sum(s.routines, HoldsToken) + HoldsToken(s.routines[r].(pc := pc))
  {
    SumUpdate(s.routines, r, s.routines[r].(pc := pc), HoldsToken);
  }

  lemma WorkerBalance(s: State, w: WorkerId, worker: Worker)
    requires w < |s.workers|
    ensures var ws := s.workers[w := worker];
            && Sum(ws, InboxLength) + |s.workers[w].inbox| == Sum(s.workers, InboxLength) + |worker.inbox|
            && Sum(ws, AtSelect) + AtSelect(s.workers[w]) == Sum(s.workers, AtSelect) + AtSelect(worker)
  {
    SumUpdate(s.workers, w, worker, InboxLength);
    SumUpdate(s.workers, w, worker, AtSelect);
  }

  lemma SendBalances(s: State, a: Agent)
    requires Balanced(s) && CanSend(s, a)
    ensures Balanced(DoSend(s, a))
  {
    match a
    case HandlerAgent(_) =>
    case RoutineAgent(i) => WithPcBalance(s, i, Ended);
    case WorkerAgent(i) => WorkerBalance(s, i, s.workers[i].(mode := Announcing));
  }

  lemma DispatchBalances(s: State)
    requires Balanced(s) && s.jobQueue != []
    ensures Balanced(DoDispatch(s))
  {
    SumAppend(s.routines, Routine(s.jobQueue[0], WritePending), HoldsToken);
  }

  lemma AnnounceBalances(s: State, w: WorkerId)
    requires Balanced(s) && IsAnnouncing(s, w)
    ensures Balanced(DoAnnounce(s, w))
  {
    WorkerBalance(s, w, s.workers[w].(mode := Waiting));
  }

  lemma TakeBalances(s: State, r: nat)
    requires Balanced(s) && AwaitsToken(s, r) && s.pool != []
    ensures Balanced(DoTake(s, r))
  {
    WithPcBalance(s, r, GotToken(s.pool[0]));
  }

  lemma DeliverBalances(s: State, r: nat)
    requires Balanced(s) && IsBound(s, r)
    ensures Balanced(DoDeliver(s, r))
  {
    WithPcBalance(s, r, Ended);
    var w := s.routines[r].pc.target;
    WorkerBalance(s, w, DoDeliver(s, r).workers[w]);
  }

  lemma ReceiveBalances(s: State, w: WorkerId)
    requires Balanced(s) && CanReceive(s, w) && s.workers[w].inbox[0] < |s.jobs|
    ensures Balanced(DoReceive(s, w))
  {
    WorkerBalance(s, w, DoReceive(s, w).workers[w]);
  }

  lemma RoutineLocalBalances(c: Config, s: State, r: nat, a: Answer)
    requires Balanced(s) && RoutineAsks(s, r, a)
    ensures Balanced(RoutineLocal(c, s, r, a))
  {
    WithPcBalance(s, r, RoutineLocal(c, s, r, a).routines[r].pc);
  }

  lemma WorkerLocalBalances(c: Config, s: State, w: WorkerId, a: Answer)
    requires Balanced(s) && WorkerAsks(s, w, a)
    ensures Balanced(WorkerLocal(c, s, w, a))
  {
    WorkerBalance(s, w, WorkerLocal(c, s, w, a).workers[w]);
  }

  /** The balance is kept by every step, whatever the channel capacities. */
  lemma StepBalances(c: Config, s: State, a: Action)
    requires Balanced(s) && Enabled(c, s, a)
    ensures Balanced(Next(c, s, a))
  {
    match a
    case NewRequest(_) =>
    case Insert(_, _) =>
    case Send(x) => SendBalances(s, x);
    case Handoff(x) => SendBalances(s, x); DispatchBalances(DoSend(s, x));
    case Dispatch => DispatchBalances(s);
    case Local(RoutineAgent(r), ans) => RoutineLocalBalances(c, s, r, ans);
    case Local(WorkerAgent(w), ans) => WorkerLocalBalances(c, s, w, ans);
    case Announce(w) => AnnounceBalances(s, w);
    case TakeToken(r) => TakeBalances(s, r);
    case Meet(w, r) => AnnounceBalances(s, w); TakeBalances(DoAnnounce(s, w), r);
    case Store(r) => WithPcBalance(s, r, Stored);
    case Bind(r) => WithPcBalance(s, r, Bound(s.nextWorker.value));
    case Deliver(r) => DeliverBalances(s, r);
    case DeliverDirect(r) => DeliverBalances(s, r); ReceiveBalances(DoDeliver(s, r), s.routines[r].pc.target);
    case Receive(w) => ReceiveBalances(s, w);
  }

  /** What a step may do to tokens without leaving the workers' names. */
  lemma NamesKept(c: Config, s: State, s': State)
    requires TokensNameWorkers(c, s)
    requires |s'.workers| == |s.workers|
    requires forall w <- s'.pool :: w in s.pool || w < c.workers
    requires s'.nextWorker == s.nextWorker || (s'.nextWorker.Some? && s'.nextWorker.value < c.workers)
    requires forall i :: 0 <= i < |s'.routines| ==>
               (i < |s.routines| && s'.routines[i].pc == s.routines[i].pc) || PcNamesWorker(c, s'.nextWorker, s'.routines[i].pc)
    ensures TokensNameWorkers(c, s')
  {
    forall i | 0 <= i < |s'.routines| ensures PcNamesWorker(c, s'.nextWorker, s'.routines[i].pc) {
      if i < |s.routines| {
        assert PcNamesWorker(c, s.nextWorker, s.routines[i].pc);
      }
    }
  }

  lemma LocalNames(c: Config, s: State, a: Action)
    requires TokensNameWorkers(c, s) && Enabled(c, s, a) && a.Local?
    ensures TokensNameWorkers(c, Next(c, s, a))
  {
    hide Enabled, Next, WorkStep, WorkerLocal, RoutineLocal;
    LocalSteps(c, s, a);
    if a.agent.WorkerAgent? {
      WorkerLocalShape(c, s, a.agent.i, a.answer);
    } else {
      RoutineLocalShape(c, s, a.agent.i, a.answer);
    }
    NamesKept(c, s, Next(c, s, a));
  }

  lemma TokenNames(c: Config, s: State, a: Action)
    requires TokensNameWorkers(c, s) && Enabled(c, s, a) && IsTokenStep(a)
    ensures TokensNameWorkers(c, Next(c, s, a))
  {
    hide WorkerLocal, RoutineLocal, WorkerAsks, RoutineAsks;
    var s' := Next(c, s, a);
    match a
    case TakeToken(_) =>
      assert s.pool[0] in s.pool;
      NamesKept(c, s, s');
    case Store(r) =>
      assert PcNamesWorker(c, s.nextWorker, s.routines[r].pc);
      NamesKept(c, s, s');
    case _ => NamesKept(c, s, s');
  }

  lemma StepNamesWorkers(c: Config, s: State, a: Action)
    requires TokensNameWorkers(c, s) && Enabled(c, s, a)
    ensures TokensNameWorkers(c, Next(c, s, a))
  {
    hide WorkerLocal, RoutineLocal, WorkerAsks, RoutineAsks;
    if a.Local? {
      LocalNames(c, s, a);
    } else if IsTokenStep(a) {
      TokenNames(c, s, a);
    } else {
      NamesKept(c, s, Next(c, s, a));
    }
  }

  lemma {:induction false} FreshWorkers(n: nat)
    ensures var ws := seq(n, _ => Worker([], Announcing));
            Sum(ws, InboxLength) == 0 && Sum(ws, AtSelect) == 0
  {
    if n > 0 {
      assert seq(n, _ => Worker([], Announcing))[..n - 1] == seq(n - 1, _ => Worker([], Announcing));
      FreshWorkers(n - 1);
    }
  }

  lemma {:induction false} RunBalances(c: Config, run: Run, n: nat)
    requires IsRun(c, run) && n < |run.states|
    ensures Balanced(run.states[n]) && TokensNameWorkers(c, run.states[n])
  {
    hide Enabled, Next;
    if n == 0 {
      FreshWorkers(c.workers);
    } else {
      RunBalances(c, run, n - 1);
      StepBalances(c, run.states[n - 1], run.actions[n - 1]);
      StepNamesWorkers(c, run.states[n - 1], run.actions[n - 1]);
    }
  }

  /** The balance, for every reachable state. */
  lemma TokensAreBalanced(c: Config, s: State)
    requires Reachable(c, s)
    ensures Balanced(s) && TokensNameWorkers(c, s)
  {
    var run: Run :| IsRun(c, run) && run.states[|run.states| - 1] == s;
    RunBalances(c, run, |run.states| - 1);
  }

  // ---- Consequences ----

  lemma SelectBound(s: State)
    ensures Sum(s.workers, AtSelect) <= |s.workers|
    ensures (exists w <- s.workers :: w.mode != Waiting) ==> Sum(s.workers, AtSelect) < |s.workers|
  {
    SumOfUnits(s.workers, AtSelect);
    if w :| w in s.workers && w.mode != Waiting {
      assert AtSelect(w) == 0;
    }
  }

  /** When there are no more workers than the channel capacity, an announcing worker always
      finds room in the pool, and a goroutine with a job always finds room in the inbox. */
  lemma NoSendBlocks(c: Config, s: State)
    requires Reachable(c, s) && c.workers <= c.capacity
    ensures forall w: nat :: IsAnnouncing(s, w) ==> |s.pool| < c.capacity
    ensures forall r: nat :: IsBound(s, r) ==> |s.workers[s.routines[r].pc.target].inbox| < c.capacity
  {
    TokensAreBalanced(c, s);
    SelectBound(s);
    forall w: nat | IsAnnouncing(s, w) ensures |s.pool| < c.capacity {
      assert s.workers[w] in s.workers;
    }
    forall r: nat | IsBound(s, r) ensures |s.workers[s.routines[r].pc.target].inbox| < c.capacity {
      SumAtLeast(s.routines, r, HoldsToken);
      SumAtLeast(s.workers, s.routines[r].pc.target, InboxLength);
    }
  }
}
