// The invariant is kept by every step and so holds in every reachable state.
module QueueSteps {
  import opened Common
  import opened AppErrors
  import opened Ports
  import opened Jobs
  import opened Sums
  import opened Queue
  import opened QueueConservation
  import opened QueueTokens
  import opened QueueInvariant

  /** What is left of the invariant once the counting is done. */
  ghost predicate Known(c: Config, s: State) {
    && PlacesOk(c, s)
    && RowsOk(s)
    && RequestsOk(s)
    && HostsOk(s)
  }

  /** In `s'` job `j` is at `p` for the reasons it was at `q` in `s`. */
  ghost predicate Came(c: Config, s: State, q: Place, s': State, p: Place, j: JobId)
    requires Holds(s', p, j)
  {
    && Holds(s, q, j)
    && (j < |s.jobs| && JobOk(c, s.jobs[j], s.db, j, PhaseOf(s, q, j)) ==>
          JobOk(c, s.jobs[j], s.db, j, PhaseOf(s', p, j)))
  }

  lemma MovesAreOk(c: Config, s: State, s': State)
    requires PlacesOk(c, s) && s'.jobs == s.jobs && s'.db == s.db
    requires forall p, j: JobId :: Holds(s', p, j) ==> exists q :: Came(c, s, q, s', p, j)
    ensures PlacesOk(c, s')
  {
    forall p, j: JobId | Holds(s', p, j)
      ensures j < |s'.jobs| && JobOk(c, s'.jobs[j], s'.db, j, PhaseOf(s', p, j))
    {
      var q :| Came(c, s, q, s', p, j);
    }
  }

  lemma SendKnown(c: Config, s: State, a: Agent)
    requires Known(c, s) && CanSend(s, a)
    ensures Known(c, DoSend(s, a))
  {
    var s' := DoSend(s, a);
    var from := match a case HandlerAgent(i) => InHandler(i) case RoutineAgent(i) => InRoutine(i) case WorkerAgent(i) => InWorker(i);
    assert Holds(s, from, Carried(s, a));
    forall p, j: JobId | Holds(s', p, j) ensures exists q :: Came(c, s, q, s', p, j) {
      if p == InQueue && j == Carried(s, a) {
        assert Came(c, s, from, s', p, j);
      } else {
        assert Came(c, s, p, s', p, j);
      }
    }
    MovesAreOk(c, s, s');
    forall i | 0 <= i < |s'.handlers| ensures HandlerOk(s'.db, i, s'.handlers[i]) {
      assert HandlerOk(s.db, i, s.handlers[i]);
    }
  }

  lemma DispatchKnown(c: Config, s: State)
    requires Known(c, s) && s.jobQueue != []
    ensures Known(c, DoDispatch(s))
  {
    var s' := DoDispatch(s);
    forall p, j: JobId | Holds(s', p, j) ensures exists q :: Came(c, s, q, s', p, j) {
      if p == InRoutine(|s.routines|) {
        assert Came(c, s, InQueue, s', p, j);
      } else {
        assert Came(c, s, p, s', p, j);
      }
    }
    MovesAreOk(c, s, s');
  }

  lemma AnnounceKnown(c: Config, s: State, w: WorkerId)
    requires Known(c, s) && IsAnnouncing(s, w)
    ensures Known(c, DoAnnounce(s, w))
  {
    var s' := DoAnnounce(s, w);
    forall p, j: JobId | Holds(s', p, j) ensures exists q :: Came(c, s, q, s', p, j) {
      assert Came(c, s, p, s', p, j);
    }
    MovesAreOk(c, s, s');
  }

  /** Taking, storing and reading back a token leaves the job where it is. */
  lemma TokenKnown(c: Config, s: State, s': State, r: nat, pc: RoutinePc)
    requires Known(c, s) && IsRoutine(s, r)
    requires s.routines[r].pc.AwaitToken? || s.routines[r].pc.GotToken? || s.routines[r].pc.Stored?
    requires pc.GotToken? || pc.Stored? || pc.Bound?
    requires s' == WithPc(s, r, pc).(pool := s'.pool, nextWorker := s'.nextWorker)
    ensures Known(c, s')
  {
    forall p, j: JobId | Holds(s', p, j) ensures exists q :: Came(c, s, q, s', p, j) {
      assert Came(c, s, p, s', p, j);
    }
    MovesAreOk(c, s, s');
  }

  lemma DeliverKnown(c: Config, s: State, r: nat)
    requires Known(c, s) && IsBound(s, r)
    ensures Known(c, DoDeliver(s, r))
  {
    var s' := DoDeliver(s, r);
    var w := s.routines[r].pc.target;
    forall p, j: JobId | Holds(s', p, j) ensures exists q :: Came(c, s, q, s', p, j) {
      if p == InInbox(w) && j == s.routines[r].job {
        assert Came(c, s, InRoutine(r), s', p, j);
      } else {
        assert Came(c, s, p, s', p, j);
      }
    }
    MovesAreOk(c, s, s');
  }

  lemma ReceiveKnown(c: Config, s: State, w: WorkerId)
    requires Known(c, s) && CanReceive(s, w) && s.workers[w].inbox[0] < |s.jobs|
    ensures Known(c, DoReceive(s, w))
  {
    var s' := DoReceive(s, w);
    forall p, j: JobId | Holds(s', p, j) ensures exists q :: Came(c, s, q, s', p, j) {
      if p == InWorker(w) {
        assert Came(c, s, InInbox(w), s', p, j);
      } else {
        assert Came(c, s, p, s', p, j);
      }
    }
    MovesAreOk(c, s, s');
  }

  // ---- Handlers ----

  lemma NewRequestKnown(c: Config, s: State, macs: seq<string>)
    requires Known(c, s)
    ensures Known(c, DoNewRequest(s, macs))
  {
    var s' := DoNewRequest(s, macs);
    forall p, j: JobId | Holds(s', p, j) ensures exists q :: Came(c, s, q, s', p, j) {
      assert Came(c, s, p, s', p, j);
    }
    MovesAreOk(c, s, s');
    var n := |s.handlers|;
    assert HandlerOk(s.db, n, s'.handlers[n]) by {
      assert ([HostJob] + Specs(macs))[1..] == Specs(macs);
    }
  }

  /** A new row is a host row of its request, or does not concern host rows at all. */
  lemma InsertRows(s: State, h: nat, reply: Reply)
    requires RequestsOk(s) && RowsOk(s) && CanInsert(s, h)
    ensures var s' := DoInsert(s, h, reply);
            && DbFrame(s.db, s'.db, |s.jobs|)
            && (forall r, g :: IsHostJobRow(s.db, r, g) ==> IsHostJobRow(s'.db, r, g))
            && (forall r, g :: IsHostJobRow(s'.db, r, g) ==>
                  IsHostJobRow(s.db, r, g) || (g == |s.jobs| && r == h && s.handlers[h].todo[0] == HostJob))
            && (reply.Acked() && s.handlers[h].todo[0] == HostJob ==> IsHostJobRow(s'.db, h, |s.jobs|))
  {
    assert |s.jobs| !in s.db.jobs;
  }

  lemma InsertRequests(s: State, h: nat, reply: Reply)
    requires RequestsOk(s) && RowsOk(s) && CanInsert(s, h)
    ensures RequestsOk(DoInsert(s, h, reply))
  {
    var s' := DoInsert(s, h, reply);
    InsertRows(s, h, reply);
    assert HandlerOk(s.db, h, s.handlers[h]);
    forall i | 0 <= i < |s'.handlers| ensures HandlerOk(s'.db, i, s'.handlers[i]) {
      assert HandlerOk(s.db, i, s.handlers[i]);
      if i != h {
        HandlerKeeps(s.db, s'.db, i, s.handlers[i]);
      } else if reply.Acked() && s.handlers[h].todo[0] == HostJob {
        assert IsHostJobRow(s'.db, h, |s.jobs|);
      } else if reply.Acked() {
        var g: JobId :| IsHostJobRow(s.db, h, g);
        assert IsHostJobRow(s'.db, h, g);
      }
    }
    forall r, g, g' | IsHostJobRow(s'.db, r, g) && IsHostJobRow(s'.db, r, g') ensures g == g' {
      if r == h && s.handlers[h].todo[0] == HostJob {
        assert s.handlers[h].todo[0] in s.handlers[h].todo;
        assert !HasHostRow(s.db, h);
      }
    }
    forall j | 0 <= j < |s'.jobs| && s'.jobs[j].action == RsviewParse
      ensures HasHostRow(s'.db, s'.jobs[j].requestedBy)
    {
      var r := s'.jobs[j].requestedBy;
      assert HasHostRow(s.db, r);
      var g: JobId :| IsHostJobRow(s.db, r, g);
      assert IsHostJobRow(s'.db, r, g);
    }
  }

  lemma HandlerKeeps(db: Db, db': Db, i: RequestId, hd: Handler)
    requires HandlerOk(db, i, hd)
    requires forall g :: IsHostJobRow(db', i, g) <==> IsHostJobRow(db, i, g)
    ensures HandlerOk(db', i, hd)
  {
    if HasHostRow(db, i) {
      var g: JobId :| IsHostJobRow(db, i, g);
      assert IsHostJobRow(db', i, g);
    }
  }

  lemma InsertPlaces(c: Config, s: State, h: nat, reply: Reply)
    requires Known(c, s) && Conserved(s) && CanInsert(s, h)
    ensures PlacesOk(c, DoInsert(s, h, reply))
  {
    var s' := DoInsert(s, h, reply);
    var j0 := |s.jobs|;
    InsertRows(s, h, reply);
    forall p, j: JobId | Holds(s', p, j)
      ensures j < |s'.jobs| && JobOk(c, s'.jobs[j], s'.db, j, PhaseOf(s', p, j))
    {
      if Holds(s, p, j) {
        assert j < |s.jobs| && PhaseOf(s', p, j) == PhaseOf(s, p, j);
        JobOkFrame(c, s.jobs[j], s.db, s'.db, j0, j, PhaseOf(s, p, j));
      } else if j != j0 {
        assert p == IsDropped && Holds(s, InHandler(h), j);
        JobOkFrame(c, s.jobs[j], s.db, s'.db, j0, j, Fresh(h));
      } else {
        assert j0 !in s.db.errorRows;
        assert s'.db.Saved(j0) == [];
      }
    }
  }

  lemma InsertKnown(c: Config, s: State, h: nat, reply: Reply)
    requires Known(c, s) && Conserved(s) && CanInsert(s, h)
    ensures Known(c, DoInsert(s, h, reply))
  {
    InsertPlaces(c, s, h, reply);
    InsertRequests(s, h, reply);
  }

  // ---- Local steps ----

  /** A step of the goroutine at `at`, which holds `j0`, changes that job and the rows that
      concern it, and leaves every other place alone. */
  ghost predicate LocalFrame(c: Config, s: State, s': State, at: Place, j0: JobId) {
    && Holds(s, at, j0)
    && |s'.jobs| == |s.jobs|
    && (forall j :: 0 <= j < |s.jobs| && j != j0 ==> s'.jobs[j] == s.jobs[j])
    && (j0 < |s.jobs| ==> s'.jobs[j0].requestedBy == s.jobs[j0].requestedBy && s'.jobs[j0].action == s.jobs[j0].action)
    && DbFrame(s.db, s'.db, j0)
    && s'.handlers == s.handlers
    && (forall p, j :: Holds(s', p, j) ==>
          if p == at || (p == IsRetired && !Holds(s, p, j)) then j == j0
          else Holds(s, p, j) && PhaseOf(s', p, j) == PhaseOf(s, p, j))
  }

  lemma LocalPlaces(c: Config, s: State, s': State, at: Place, j0: JobId)
    requires Known(c, s) && Conserved(s) && LocalFrame(c, s, s', at, j0) && !at.IsRetired?
    requires j0 < |s.jobs|
    requires forall p :: Holds(s', p, j0) && (p == at || p == IsRetired) ==> JobOk(c, s'.jobs[j0], s'.db, j0, PhaseOf(s', p, j0))
    ensures PlacesOk(c, s')
  {
    forall p, j: JobId | Holds(s', p, j)
      ensures j < |s'.jobs| && JobOk(c, s'.jobs[j], s'.db, j, PhaseOf(s', p, j))
    {
      if p == at || (p == IsRetired && !Holds(s, p, j)) {
      } else {
        if j == j0 {
          AtMostOnePlace(s, p, at, j);
        }
        JobOkFrame(c, s.jobs[j], s.db, s'.db, j0, j, PhaseOf(s, p, j));
      }
    }
  }

  lemma LocalRest(c: Config, s: State, s': State, at: Place, j0: JobId)
    requires Known(c, s) && LocalFrame(c, s, s', at, j0) && j0 < |s.jobs|
    requires j0 in s'.db.jobs ==> j0 in s.db.jobs && RowOk(s'.jobs[j0], s'.db.jobs[j0])
    ensures RowsOk(s') && RequestsOk(s')
  {
    forall j | j in s'.db.jobs ensures j < |s'.jobs| && RowOk(s'.jobs[j], s'.db.jobs[j]) {
      assert j in s.db.jobs;
    }
    assert forall r, g :: IsHostJobRow(s'.db, r, g) <==> IsHostJobRow(s.db, r, g);
    forall i | 0 <= i < |s'.handlers| ensures HandlerOk(s'.db, i, s'.handlers[i]) {
      assert HandlerOk(s.db, i, s.handlers[i]);
      HandlerKeeps(s.db, s'.db, i, s.handlers[i]);
    }
    forall j | 0 <= j < |s'.jobs| && s'.jobs[j].action == RsviewParse
      ensures HasHostRow(s'.db, s'.jobs[j].requestedBy)
    {
      var r := s'.jobs[j].requestedBy;
      assert HasHostRow(s.db, r);
      var g: JobId :| IsHostJobRow(s.db, r, g);
      assert IsHostJobRow(s'.db, r, g);
    }
  }

  lemma RoutineFrame(c: Config, s: State, r: nat, a: Answer)
    requires RoutineAsks(s, r, a)
    requires DbFrame(s.db, RoutineLocal(c, s, r, a).db, s.routines[r].job)
    ensures LocalFrame(c, s, RoutineLocal(c, s, r, a), InRoutine(r), s.routines[r].job)
  {
    hide FailStep, DbFrame;
  }

  /** What a goroutine's own step owes to the rest of the system. */
  ghost predicate RoutineStepOk(c: Config, s: State, r: nat, a: Answer)
    requires RoutineAsks(s, r, a)
  {
    var s', j := RoutineLocal(c, s, r, a), s.routines[r].job;
    && DbFrame(s.db, s'.db, j)
    && JobOk(c, s'.jobs[j], s'.db, j, if s'.routines[r].pc == Ended then Retired else InDispatch(s'.routines[r].pc))
    && (j in s'.db.jobs ==> j in s.db.jobs && RowOk(s'.jobs[j], s'.db.jobs[j]))
    && s'.db.hosts == s.db.hosts
  }

  lemma PendingStepOk(c: Config, s: State, r: nat, a: Answer)
    requires RoutineAsks(s, r, a) && (s.routines[r].pc == WritePending || s.routines[r].pc == Refused)
    requires var j := s.routines[r].job; Live(c, s.jobs[j], s.db, j) && (j in s.db.jobs ==> RowOk(s.jobs[j], s.db.jobs[j]))
    ensures RoutineStepOk(c, s, r, a)
  {
  }

  lemma ErringStepOk(c: Config, s: State, r: nat, a: Answer)
    requires RoutineAsks(s, r, a) && s.routines[r].pc.Erring?
    requires var j := s.routines[r].job;
             FailPcOk(c, s.jobs[j], s.db, j, s.routines[r].pc.f) && (j in s.db.jobs ==> RowOk(s.jobs[j], s.db.jobs[j]))
    ensures RoutineStepOk(c, s, r, a)
  {
    var j := s.routines[r].job;
    FailStepOk(c, s.db, j, s.jobs[j], s.routines[r].pc.f, a.reply);
  }

  lemma RoutineLocalKnown(c: Config, s: State, r: nat, a: Answer)
    requires Known(c, s) && Conserved(s) && RoutineAsks(s, r, a)
    ensures Known(c, RoutineLocal(c, s, r, a))
  {
    var s', j0, at := RoutineLocal(c, s, r, a), s.routines[r].job, InRoutine(r);
    assert Holds(s, at, j0);
    assert JobOk(c, s.jobs[j0], s.db, j0, PhaseOf(s, at, j0));
    if s.routines[r].pc == WritePending || s.routines[r].pc == Refused {
      PendingStepOk(c, s, r, a);
    } else {
      ErringStepOk(c, s, r, a);
    }
    RoutineFrame(c, s, r, a);
    if Holds(s, IsRetired, j0) {
      AtMostOnePlace(s, at, IsRetired, j0);
    }
    LocalPlaces(c, s, s', at, j0);
    LocalRest(c, s, s', at, j0);
  }

  lemma WorkerFrame(c: Config, s: State, w: WorkerId, a: Answer)
    requires WorkerAsks(s, w, a) && !s.crashed
    requires var j := s.workers[w].mode.job;
             StepOk(c, s.db, j, s.jobs[j], WorkStep(c.maxFails, c.rules, s.db, j, s.jobs[j], s.workers[w].mode.pc, a))
    ensures var s', j := WorkerLocal(c, s, w, a), s.workers[w].mode.job;
            && LocalFrame(c, s, s', InWorker(w), j)
            && !s'.crashed
            && (forall p :: Holds(s', p, j) && p == InWorker(w) ==> JobOk(c, s'.jobs[j], s'.db, j, PhaseOf(s', p, j)))
            && (Holds(s', IsRetired, j) && !Holds(s, IsRetired, j) ==> JobOk(c, s'.jobs[j], s'.db, j, Retired))
  {
    hide WorkerLocal, WorkStep, Possible, WorkPcOk, RetiredOk, DbFrame, RowOk;
    WorkerLocalShape(c, s, w, a);
  }

  lemma WorkerLocalKnown(c: Config, s: State, w: WorkerId, a: Answer)
    requires Known(c, s) && Conserved(s) && WorkerAsks(s, w, a) && !s.crashed
    ensures Known(c, WorkerLocal(c, s, w, a)) && !WorkerLocal(c, s, w, a).crashed
  {
    hide WorkStep, Possible, LocalFrame, Subsequence;
    var s' := WorkerLocal(c, s, w, a);
    var j0, pc := s.workers[w].mode.job, s.workers[w].mode.pc;
    var at := InWorker(w);
    assert Holds(s, at, j0);
    assert JobOk(c, s.jobs[j0], s.db, j0, PhaseOf(s, at, j0));
    WorkStepOk(c, s.db, j0, s.jobs[j0], pc, a);
    WorkerFrame(c, s, w, a);
    if Holds(s, IsRetired, j0) {
      AtMostOnePlace(s, at, IsRetired, j0);
    }
    LocalPlaces(c, s, s', at, j0);
    LocalRest(c, s, s', at, j0);
    WorkerHosts(c, s, w, a);
  }

  lemma StepHosts(c: Config, db: Db, j: JobId, job: Job, pc: WorkPc, a: Answer)
    requires Possible(db, j, job, pc, a) && WorkPcOk(c, job, db, j, pc)
    ensures forall row <- WorkStep(c.maxFails, c.rules, db, j, job, pc, a).db.hosts ::
              row in db.hosts || row.createdBy == None || (row.createdBy == Some(j) && job.action == HostCreate)
  {
  }

  lemma WorkerHosts(c: Config, s: State, w: WorkerId, a: Answer)
    requires HostsOk(s) && WorkerAsks(s, w, a)
    requires LocalFrame(c, s, WorkerLocal(c, s, w, a), InWorker(w), s.workers[w].mode.job)
    requires var j := s.workers[w].mode.job; WorkPcOk(c, s.jobs[j], s.db, j, s.workers[w].mode.pc)
    ensures HostsOk(WorkerLocal(c, s, w, a))
  {
    hide WorkStep, WorkPcOk, WorkerLocal, Possible, DbFrame, Holds;
    WorkerLocalShape(c, s, w, a);
    var j := s.workers[w].mode.job;
    StepHosts(c, s.db, j, s.jobs[j], s.workers[w].mode.pc, a);
  }

  // ---- All steps ----

  lemma StepKeepsInv(c: Config, s: State, a: Action)
    requires Inv(c, s) && Enabled(c, s, a)
    ensures Inv(c, Next(c, s, a))
  {
    hide PlacesOk, RowsOk, RequestsOk, HostsOk, Conserved, Balanced, TokensNameWorkers;
    StepConserves(c, s, a);
    StepBalances(c, s, a);
    StepNamesWorkers(c, s, a);
    match a
    case NewRequest(macs) => NewRequestKnown(c, s, macs);
    case Insert(h, reply) => InsertKnown(c, s, h, reply);
    case Send(x) => SendKnown(c, s, x);
    case Handoff(x) => SendKnown(c, s, x); DispatchKnown(c, DoSend(s, x));
    case Dispatch => DispatchKnown(c, s);
    case Local(RoutineAgent(r), ans) => RoutineLocalKnown(c, s, r, ans);
    case Local(WorkerAgent(w), ans) => WorkerLocalKnown(c, s, w, ans);
    case Announce(w) => AnnounceKnown(c, s, w);
    case TakeToken(r) => TokenKnown(c, s, Next(c, s, a), r, GotToken(s.pool[0]));
    case Meet(w, r) =>
      AnnounceKnown(c, s, w);
      TokenKnown(c, DoAnnounce(s, w), Next(c, s, a), r, GotToken(DoAnnounce(s, w).pool[0]));
    case Store(r) => TokenKnown(c, s, Next(c, s, a), r, Stored);
    case Bind(r) => TokenKnown(c, s, Next(c, s, a), r, Bound(s.nextWorker.value));
    case Deliver(r) => DeliverKnown(c, s, r);
    case DeliverDirect(r) =>
      DeliverKnown(c, s, r);
      ReceiveKnown(c, DoDeliver(s, r), s.routines[r].pc.target);
    case Receive(w) => ReceiveKnown(c, s, w);
  }

  lemma InitIsKnown(c: Config)
    ensures Inv(c, Init(c))
  {
    InitConserves(c);
    FreshWorkers(c.workers);
    assert forall p, j :: !Holds(Init(c), p, j);
  }

  lemma {:induction false} RunKeepsInv(c: Config, run: Run, n: nat)
    requires IsRun(c, run) && n < |run.states|
    ensures Inv(c, run.states[n])
  {
    hide Enabled, Next, Inv;
    if n == 0 {
      InitIsKnown(c);
    } else {
      RunKeepsInv(c, run, n - 1);
      StepKeepsInv(c, run.states[n - 1], run.actions[n - 1]);
    }
  }

  /** The invariant, for every reachable state. */
  lemma InvHolds(c: Config, s: State)
    requires Reachable(c, s)
    ensures Inv(c, s)
  {
    var run: Run :| IsRun(c, run) && run.states[|run.states| - 1] == s;
    RunKeepsInv(c, run, |run.states| - 1);
  }
}
