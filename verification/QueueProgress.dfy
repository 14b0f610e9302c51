// Progress: while a submitted job is unfinished, some goroutine can move. This needs
// at least one worker and at most one worker more than the channels have room for.
module QueueProgress {
  import opened Common
  import opened AppErrors
  import opened Jobs
  import opened Sums
  import opened Queue
  import opened QueueConservation
  import opened QueueTokens
  import opened QueueInvariant
  import opened QueueSteps

  /** A job was submitted to the queue and is neither done nor failed for good. */
  ghost predicate Unfinished(s: State) {
    exists p, j :: Holds(s, p, j) && !p.IsRetired? && !p.IsDropped? && !p.InHandler?
  }

  /** The dispatcher, a dispatch goroutine or a worker can take a step. */
  ghost predicate CanMove(c: Config, s: State) {
    exists a :: IsQueueStep(a) && Enabled(c, s, a)
  }

  lemma Moves(c: Config, s: State, a: Action)
    requires IsQueueStep(a) && Enabled(c, s, a)
    ensures CanMove(c, s)
  {
  }

  lemma SenderMoves(c: Config, s: State, x: Agent)
    requires Inv(c, s) && CanSend(s, x) && !x.HandlerAgent?
    ensures CanMove(c, s)
  {
    Moves(c, s, if s.jobQueue == [] then Handoff(x) else Dispatch);
  }

  /** An answer the outside can always give. */
  function SomeAnswer(db: Db, pc: WorkPc): Answer {
    match pc
    case ResolveIpmi => Called(None)
    case UpsertHost => Upserted(db.hosts, None)
    case ParsePort => Fetched(Err(InternalCommonError), Rejected)
    case FindHostJob => JobRows(QueryFailed)
    case FindHost(_) => HostRows(QueryFailed)
    case UnknownAction => Nothing
    case _ => Wrote(Committed)
  }

  lemma ExecutingMoves(c: Config, s: State, w: WorkerId)
    requires Inv(c, s) && w < |s.workers| && s.workers[w].mode.Executing?
    ensures CanMove(c, s)
  {
    var j, pc := s.workers[w].mode.job, s.workers[w].mode.pc;
    assert Holds(s, InWorker(w), j);
    if pc == Failing(Requeue) {
      SenderMoves(c, s, WorkerAgent(w));
    } else {
      assert WorkPcOk(c, s.jobs[j], s.db, j, pc);
      Moves(c, s, Local(WorkerAgent(w), SomeAnswer(s.db, pc)));
    }
  }

  /** The goroutine waits for nothing but the outside or room in the job channel. */
  ghost predicate IsFree(pc: RoutinePc) {
    pc.WritePending? || pc.Refused? || pc.Erring? || pc.GotToken? || pc.Stored?
  }

  lemma FreeRoutineMoves(c: Config, s: State, r: nat)
    requires Inv(c, s) && r < |s.routines| && IsFree(s.routines[r].pc)
    ensures CanMove(c, s)
  {
    var j, pc := s.routines[r].job, s.routines[r].pc;
    assert Holds(s, InRoutine(r), j);
    assert JobOk(c, s.jobs[j], s.db, j, InDispatch(pc));
    if pc == Erring(Requeue) {
      SenderMoves(c, s, RoutineAgent(r));
    } else if pc.GotToken? {
      Moves(c, s, Store(r));
    } else if pc.Stored? {
      assert PcNamesWorker(c, s.nextWorker, pc);
      Moves(c, s, Bind(r));
    } else {
      Moves(c, s, Local(RoutineAgent(r), if pc.Refused? then Nothing else Wrote(Committed)));
    }
  }

  /** Nobody moves on their own: workers announce, or wait on an empty inbox, and dispatch
      goroutines await a token or are bound to an inbox. */
  ghost predicate Quiet(s: State) {
    && (forall w <- s.workers :: w.mode == Announcing || w == Worker([], Waiting))
    && (forall r <- s.routines :: r.pc.AwaitToken? || r.pc.Bound? || r.pc.Ended?)
  }

  lemma LoudMoves(c: Config, s: State)
    requires Inv(c, s) && !Quiet(s)
    ensures CanMove(c, s)
  {
    if w :| 0 <= w < |s.workers| && s.workers[w].mode.Executing? {
      ExecutingMoves(c, s, w);
    } else if w: nat :| CanReceive(s, w) {
      assert Holds(s, InInbox(w), s.workers[w].inbox[0]);
      Moves(c, s, Receive(w));
    } else if r :| 0 <= r < |s.routines| && IsFree(s.routines[r].pc) {
      FreeRoutineMoves(c, s, r);
    } else {
      NothingLoud(s);
    }
  }

  lemma NothingLoud(s: State)
    requires forall w :: 0 <= w < |s.workers| ==> !s.workers[w].mode.Executing?
    requires forall w: nat :: !CanReceive(s, w)
    requires forall r :: 0 <= r < |s.routines| ==> !IsFree(s.routines[r].pc)
    ensures Quiet(s)
  {
    forall w | w in s.workers ensures w.mode == Announcing || w == Worker([], Waiting) {
      var i :| 0 <= i < |s.workers| && s.workers[i] == w;
      assert !CanReceive(s, i);
    }
  }

  /** With every worker waiting on an empty inbox, all tokens are in the pool or on their way. */
  lemma QuietAllWaiting(c: Config, s: State)
    requires Inv(c, s) && Quiet(s) && forall w <- s.workers :: w.mode == Waiting
    ensures |s.pool| + Sum(s.routines, HoldsToken) == c.workers
  {
    SumOfOnes(s.workers, AtSelect);
    SumOfZeros(s.workers, InboxLength);
  }

  /** With a worker shut out of a full pool, no token is on its way and every inbox is empty. */
  lemma QuietPoolFull(c: Config, s: State, w: WorkerId)
    requires Inv(c, s) && c.workers <= c.capacity + 1
    requires IsAnnouncing(s, w) && |s.pool| >= c.capacity
    ensures |s.pool| == c.capacity && Sum(s.routines, HoldsToken) == 0 && Sum(s.workers, InboxLength) == 0
  {
    assert s.workers[w] in s.workers;
    SelectBound(s);
  }

  lemma BoundRoutineMoves(c: Config, s: State, r: nat)
    requires Inv(c, s) && Quiet(s) && c.workers <= c.capacity + 1
    requires r < |s.routines| && s.routines[r].pc.Bound?
    ensures CanMove(c, s)
  {
    assert PcNamesWorker(c, s.nextWorker, s.routines[r].pc);
    assert Holds(s, InRoutine(r), s.routines[r].job);
    var w := s.routines[r].pc.target;
    assert s.workers[w] in s.workers;
    if s.workers[w].mode == Waiting {
      Moves(c, s, DeliverDirect(r));
    } else {
      AnnouncerMoves(c, s, r, w);
    }
  }

  lemma AnnouncerMoves(c: Config, s: State, r: nat, w: WorkerId)
    requires Inv(c, s) && c.workers <= c.capacity + 1
    requires r < |s.routines| && s.routines[r].pc.Bound? && IsAnnouncing(s, w)
    ensures CanMove(c, s)
  {
    if |s.pool| < c.capacity {
      Moves(c, s, Announce(w));
    } else {
      QuietPoolFull(c, s, w);
      SumAtLeast(s.routines, r, HoldsToken);
    }
  }

  lemma WaitingRoutineMoves(c: Config, s: State, r: nat)
    requires Inv(c, s) && Quiet(s) && 1 <= c.workers <= c.capacity + 1
    requires AwaitsToken(s, r)
    ensures CanMove(c, s)
  {
    if s.pool != [] {
      Moves(c, s, TakeToken(r));
    } else if w: nat :| IsAnnouncing(s, w) {
      Moves(c, s, Meet(w, r));
    } else {
      forall w | w in s.workers ensures w.mode == Waiting {
        var i :| 0 <= i < |s.workers| && s.workers[i] == w;
        assert !IsAnnouncing(s, i);
      }
      QuietAllWaiting(c, s);
      var b := SumWitness(s.routines, HoldsToken);
      assert s.routines[b] in s.routines;
      BoundRoutineMoves(c, s, b);
    }
  }

  lemma InboxMoves(c: Config, s: State, w: WorkerId)
    requires Inv(c, s) && c.workers <= c.capacity + 1
    requires w < |s.workers| && s.workers[w].inbox != [] && s.workers[w].mode == Announcing
    ensures CanMove(c, s)
  {
    if |s.pool| < c.capacity {
      Moves(c, s, Announce(w));
    } else {
      QuietPoolFull(c, s, w);
      SumAtLeast(s.workers, w, InboxLength);
    }
  }

  lemma PlaceMoves(c: Config, s: State, p: Place, j: JobId)
    requires Inv(c, s) && Quiet(s) && 1 <= c.workers <= c.capacity + 1
    requires Holds(s, p, j) && !p.IsRetired? && !p.IsDropped? && !p.InHandler?
    ensures CanMove(c, s)
  {
    match p
    case InQueue => Moves(c, s, Dispatch);
    case InRoutine(r) =>
      assert s.routines[r] in s.routines;
      if s.routines[r].pc.AwaitToken? {
        WaitingRoutineMoves(c, s, r);
      } else {
        BoundRoutineMoves(c, s, r);
      }
    case InInbox(w) =>
      assert s.workers[w] in s.workers;
      InboxMoves(c, s, w);
    case InWorker(w) => ExecutingMoves(c, s, w);
  }

  /** Progress in every state that satisfies the invariant. */
  lemma InvProgress(c: Config, s: State)
    requires Inv(c, s) && 1 <= c.workers <= c.capacity + 1 && Unfinished(s)
    ensures CanMove(c, s)
  {
    if !Quiet(s) {
      LoudMoves(c, s);
    } else {
      var p, j :| Holds(s, p, j) && !p.IsRetired? && !p.IsDropped? && !p.InHandler?;
      PlaceMoves(c, s, p, j);
    }
  }

  /** A submitted job that is unfinished keeps the queue itself moving: however many handlers
      insert or wait, it is the dispatcher, a dispatch goroutine or a worker that can step. */
  lemma Progress(c: Config, s: State)
    requires Reachable(c, s) && 1 <= c.workers <= c.capacity + 1 && Unfinished(s)
    ensures CanMove(c, s)
  {
    InvHolds(c, s);
    InvProgress(c, s);
  }

  /** A handler with jobs to insert or to send. */
  predicate IsBusy(s: State, i: nat) {
    i < |s.handlers| && (s.handlers[i].todo != [] || s.handlers[i].ready != [])
  }

  /** A step that handler `i` takes. */
  predicate IsHandlerStep(a: Action, i: nat) {
    match a
    case Insert(h, _) => h == i
    case Send(x) => x == HandlerAgent(i)
    case Handoff(x) => x == HandlerAgent(i)
    case _ => false
  }

  /** A busy handler takes a step of its own unless the job channel is full, and then the
      dispatcher can make room, whatever the number of workers. */
  lemma HandlerProgress(c: Config, s: State, i: nat)
    requires Reachable(c, s) && IsBusy(s, i)
    ensures (exists a :: IsHandlerStep(a, i) && Enabled(c, s, a))
         || (|s.jobQueue| >= c.buffer && s.jobQueue != [] && Enabled(c, s, Dispatch))
  {
    InvHolds(c, s);
    var a := if s.handlers[i].todo != [] then Insert(i, Committed)
             else if s.jobQueue == [] then Handoff(HandlerAgent(i)) else Send(HandlerAgent(i));
    assert IsHandlerStep(a, i);
  }
}
