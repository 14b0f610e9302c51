// The bound on the number of workers is exact: with no worker, or with two more than the
// channels have room for, the queue can come to rest with a job unfinished.
//
// Two goroutines take the tokens of workers 0 and 1, and the second overwrites
// nextWorker before either reads it back, so both jobs go to worker 1. It finishes the
// first and announces itself again, but by then other workers have filled the pool; its
// second job stays where it is.
module QueueStuck {
  import opened Common
  import opened AppErrors
  import opened Ports
  import opened Jobs
  import opened Queue
  import opened QueueConservation
  import opened QueueInvariant
  import opened QueueProgress
  import opened QueueTokens

  lemma Go(c: Config, s: State, a: Action, s': State)
    requires Reachable(c, s) && Enabled(c, s, a) && Next(c, s, a) == s'
    ensures Reachable(c, s')
  {
    NextIsReachable(c, s, a);
  }

  function HostAt(state: JobStatus): Job {
    Job(0, HostCreate, state, false, [], FreshPort(""))
  }

  function PortAt(state: JobStatus): Job {
    Job(0, RsviewParse, state, false, [], FreshPort("m"))
  }

  function DbAt(host: JobStatus, port: JobStatus): Db {
    Db(map[0 := JobRow(0, HostCreate, host, false), 1 := JobRow(0, RsviewParse, port, false)], {}, map[], map[])
  }

  /** One request of two jobs, each carried by a goroutine of its own. */
  function Carrying(c: Config, host: JobStatus, port: JobStatus, pc0: RoutinePc, pc1: RoutinePc): State {
    Init(c).(
      jobs := [HostAt(host), PortAt(port)],
      db := DbAt(host, port),
      handlers := [Handler(["m"], [], [])],
      routines := [Routine(0, pc0), Routine(1, pc1)])
  }

  function BothInserted(c: Config): State {
    Init(c).(
      jobs := [HostAt(Created), PortAt(Created)],
      db := DbAt(Created, Created),
      handlers := [Handler(["m"], [], [0, 1])])
  }

  function HostInserted(c: Config): State {
    Init(c).(
      jobs := [HostAt(Created)],
      db := Db(map[0 := JobRow(0, HostCreate, Created, false)], {}, map[], map[]),
      handlers := [Handler(["m"], [PortJob("m")], [0])])
  }

  lemma HostInsertedIsReachable(c: Config)
    ensures Reachable(c, HostInserted(c))
  {
    var s0, s2 := Init(c), HostInserted(c);
    InitIsReachable(c);
    var s1 := s0.(handlers := [Handler(["m"], [HostJob, PortJob("m")], [])]);
    assert [HostJob] + Specs(["m"]) == [HostJob, PortJob("m")];
    Go(c, s0, NewRequest(["m"]), s1);
    assert s1.handlers[0].todo[1..] == [PortJob("m")] && s1.handlers[0].ready + [0] == [0];
    assert DoInsert(s1, 0, Committed).handlers == s2.handlers;
    assert DoInsert(s1, 0, Committed).db == s2.db;
    assert DoInsert(s1, 0, Committed) == s2;
    Go(c, s1, Insert(0, Committed), s2);
  }

  lemma InsertedIsReachable(c: Config)
    ensures Reachable(c, BothInserted(c))
  {
    var s2 := HostInserted(c);
    HostInsertedIsReachable(c);
    assert s2.handlers[0].todo[1..] == [] && s2.handlers[0].ready + [1] == [0, 1];
    assert DoInsert(s2, 0, Committed).handlers == BothInserted(c).handlers;
    assert DoInsert(s2, 0, Committed) == BothInserted(c);
    Go(c, s2, Insert(0, Committed), BothInserted(c));
  }

  lemma CreatedIsReachable(c: Config)
    ensures Reachable(c, Carrying(c, Created, Created, WritePending, WritePending))
  {
    var s2 := BothInserted(c);
    InsertedIsReachable(c);
    var s3 := s2.(handlers := [Handler(["m"], [], [1])], routines := [Routine(0, WritePending)]);
    assert DoSend(s2, HandlerAgent(0)).jobQueue == [0];
    assert DoDispatch(DoSend(s2, HandlerAgent(0))).handlers == s3.handlers;
    assert DoDispatch(DoSend(s2, HandlerAgent(0))).routines == s3.routines;
    assert DoDispatch(DoSend(s2, HandlerAgent(0))) == s3;
    Go(c, s2, Handoff(HandlerAgent(0)), s3);
    var s4 := Carrying(c, Created, Created, WritePending, WritePending);
    assert DoSend(s3, HandlerAgent(0)).jobQueue == [1];
    assert s3.handlers[0].ready[1..] == [] && s3.handlers[0 := Handler(["m"], [], [])] == s4.handlers;
    assert DoDispatch(DoSend(s3, HandlerAgent(0))).handlers == s4.handlers;
    assert DoDispatch(DoSend(s3, HandlerAgent(0))).routines == s4.routines;
    assert DoDispatch(DoSend(s3, HandlerAgent(0))) == s4;
    Go(c, s3, Handoff(HandlerAgent(0)), s4);
  }

  lemma AwaitingIsReachable(c: Config)
    ensures Reachable(c, Carrying(c, Pending, Pending, AwaitToken, AwaitToken))
  {
    var s4 := Carrying(c, Created, Created, WritePending, WritePending);
    CreatedIsReachable(c);
    var s5 := Carrying(c, Pending, Created, AwaitToken, WritePending);
    assert RoutineLocal(c, s4, 0, Wrote(Committed)) == s5;
    Go(c, s4, Local(RoutineAgent(0), Wrote(Committed)), s5);
    var s6 := Carrying(c, Pending, Pending, AwaitToken, AwaitToken);
    assert RoutineLocal(c, s5, 1, Wrote(Committed)) == s6;
    Go(c, s5, Local(RoutineAgent(1), Wrote(Committed)), s6);
  }

  /** The two goroutines, workers 0 and 1 waiting, and what is stored in nextWorker. */
  function Tokens(c: Config, pc0: RoutinePc, pc1: RoutinePc, next: Option<WorkerId>): State
    requires c.workers >= 2
  {
    Carrying(c, Pending, Pending, pc0, pc1).(
      workers := Init(c).workers[0 := Worker([], Waiting)][1 := Worker([], Waiting)],
      nextWorker := next)
  }

  lemma BothTakenIsReachable(c: Config)
    requires c.workers >= 2
    ensures Reachable(c, Tokens(c, GotToken(0), GotToken(1), None))
  {
    AwaitingIsReachable(c);
    var s0 := Carrying(c, Pending, Pending, AwaitToken, AwaitToken);
    var s1 := Carrying(c, Pending, Pending, GotToken(0), AwaitToken).(workers := s0.workers[0 := Worker([], Waiting)]);
    assert DoTake(DoAnnounce(s0, 0), 0) == s1;
    Go(c, s0, Meet(0, 0), s1);
    var s2 := Tokens(c, GotToken(0), GotToken(1), None);
    assert DoTake(DoAnnounce(s1, 1), 1) == s2;
    Go(c, s1, Meet(1, 1), s2);
  }

  lemma BothStoredIsReachable(c: Config)
    requires c.workers >= 2
    ensures Reachable(c, Tokens(c, Stored, Stored, Some(1)))
  {
    BothTakenIsReachable(c);
    var s2, s3, s4 := Tokens(c, GotToken(0), GotToken(1), None), Tokens(c, Stored, GotToken(1), Some(0)), Tokens(c, Stored, Stored, Some(1));
    assert DoStore(s2, 0) == s3;
    Go(c, s2, Store(0), s3);
    assert DoStore(s3, 1) == s4;
    Go(c, s3, Store(1), s4);
  }

  /** Both goroutines end up bound to worker 1. */
  function BothBound(c: Config): State
    requires c.workers >= 2
  {
    Tokens(c, Bound(1), Bound(1), Some(1))
  }

  lemma BothBoundIsReachable(c: Config)
    requires c.workers >= 2
    ensures Reachable(c, BothBound(c))
  {
    BothStoredIsReachable(c);
    var s4, s5 := Tokens(c, Stored, Stored, Some(1)), Tokens(c, Bound(1), Stored, Some(1));
    assert DoBind(s4, 0) == s5;
    Go(c, s4, Bind(0), s5);
    assert DoBind(s5, 1) == BothBound(c);
    Go(c, s5, Bind(1), BothBound(c));
  }

  /** Worker 1 has done the first job and goes to announce itself. */
  function FirstDone(c: Config): State
    requires c.workers >= 2
  {
    Carrying(c, Done, Pending, Ended, Bound(1)).(
      workers := Init(c).workers[0 := Worker([], Waiting)],
      nextWorker := Some(1),
      retired := [0])
  }

  /** Worker 1 is at `pc` with the first job. */
  function AtFirst(c: Config, pc: WorkPc): State
    requires c.workers >= 2
  {
    var s := BothBound(c);
    s.(routines := [Routine(0, Ended), Routine(1, Bound(1))],
       workers := s.workers[1 := Worker([], Executing(0, pc))])
  }

  lemma FirstStartIsReachable(c: Config)
    requires c.workers >= 2
    ensures Reachable(c, AtFirst(c, ResolveIpmi))
  {
    BothBoundIsReachable(c);
    var s0, s1 := BothBound(c), AtFirst(c, ResolveIpmi);
    var mid := DoDeliver(s0, 0);
    assert mid.workers[1].inbox == [0] && mid.workers[1].inbox[1..] == [];
    assert mid.routines == s1.routines;
    assert DoReceive(mid, 1).workers == s1.workers;
    assert DoReceive(mid, 1) == s1;
    Go(c, s0, DeliverDirect(0), s1);
  }

  lemma FirstDoneIsReachable(c: Config)
    requires c.workers >= 2
    ensures Reachable(c, FirstDone(c))
  {
    FirstStartIsReachable(c);
    var s1, s2, s3, s4 := AtFirst(c, ResolveIpmi), AtFirst(c, UpsertHost), AtFirst(c, WriteDone), FirstDone(c);
    assert s1.jobs[0 := s1.jobs[0]] == s1.jobs;
    assert WorkerLocal(c, s1, 1, Called(None)) == s2;
    Go(c, s1, Local(WorkerAgent(1), Called(None)), s2);
    assert WorkerLocal(c, s2, 1, Upserted({}, None)) == s3;
    Go(c, s2, Local(WorkerAgent(1), Upserted({}, None)), s3);
    assert s3.workers[1 := Worker([], Announcing)] == s4.workers;
    assert s3.jobs[0 := HostAt(Done)] == s4.jobs;
    assert s3.db.WriteState(0, Done, Committed) == s4.db;
    assert WorkerLocal(c, s3, 1, Wrote(Committed)) == s4;
    Go(c, s3, Local(WorkerAgent(1), Wrote(Committed)), s4);
  }

  /** The second job has gone as far as it can, and `k` further workers have announced themselves. */
  function Filling(c: Config, k: nat): State
    requires k <= c.capacity && c.workers >= c.capacity + 2
  {
    FirstDone(c).(
      routines := [Routine(0, Ended), Routine(1, if c.capacity >= 1 then Ended else Bound(1))],
      pool := seq(k, i => i + 2),
      workers := seq(c.workers, i =>
        if i == 1 then Worker(if c.capacity >= 1 then [1] else [], Announcing)
        else Worker([], if i == 0 || 2 <= i < k + 2 then Waiting else Announcing)))
  }

  lemma {:induction false} FillingIsReachable(c: Config, k: nat)
    requires k <= c.capacity && c.workers >= c.capacity + 2
    ensures Reachable(c, Filling(c, k))
  {
    if k == 0 {
      FirstDoneIsReachable(c);
      var s := FirstDone(c);
      if c.capacity >= 1 {
        assert DoDeliver(s, 1).workers[1].inbox == [1];
        assert DoDeliver(s, 1).workers == Filling(c, 0).workers;
        assert DoDeliver(s, 1) == Filling(c, 0);
        Go(c, s, Deliver(1), Filling(c, 0));
      } else {
        assert s.workers == Filling(c, 0).workers;
        assert s == Filling(c, 0);
      }
    } else {
      FillingIsReachable(c, k - 1);
      var s, w := Filling(c, k - 1), k + 1;
      assert IsAnnouncing(s, w);
      assert DoAnnounce(s, w) == Filling(c, k);
      Go(c, s, Announce(w), Filling(c, k));
    }
  }

  /** A submitted job is unfinished, and nobody can move, not even a handler. */
  ghost predicate Stuck(c: Config, s: State) {
    Unfinished(s) && forall a :: IsSystem(a) ==> !Enabled(c, s, a)
  }

  /** Nobody has anything to do but wait for someone else. */
  ghost predicate Still(c: Config, s: State) {
    && (forall h <- s.handlers :: h.todo == [] && h.ready == [])
    && s.jobQueue == []
    && (forall w <- s.workers :: !w.mode.Executing? && (w.mode.Waiting? ==> w.inbox == []))
    && (forall w <- s.workers :: w.mode.Announcing? ==> |s.pool| >= c.capacity)
    && (forall r <- s.routines :: r.pc.Ended? || WaitsForToken(s, r) || WaitsForInbox(c, s, r))
  }

  ghost predicate WaitsForToken(s: State, r: Routine) {
    r.pc.AwaitToken? && s.pool == [] && forall w <- s.workers :: !w.mode.Announcing?
  }

  ghost predicate WaitsForInbox(c: Config, s: State, r: Routine) {
    && r.pc.Bound? && r.pc.target < |s.workers|
    && s.workers[r.pc.target].mode.Announcing? && |s.workers[r.pc.target].inbox| >= c.capacity
  }

  lemma StillCannotMove(c: Config, s: State, a: Action)
    requires Still(c, s) && IsSystem(a)
    ensures !Enabled(c, s, a)
  {
    hide Possible;
    assert forall w :: 0 <= w < |s.workers| ==> s.workers[w] in s.workers;
    assert forall r :: 0 <= r < |s.routines| ==> s.routines[r] in s.routines;
    assert forall h :: 0 <= h < |s.handlers| ==> s.handlers[h] in s.handlers;
  }

  lemma NoWorkerIsStuck(c: Config)
    requires c.workers == 0
    ensures Stuck(c, Carrying(c, Pending, Pending, AwaitToken, AwaitToken))
  {
    var s := Carrying(c, Pending, Pending, AwaitToken, AwaitToken);
    assert Holds(s, InRoutine(0), 0);
    forall a | IsSystem(a) ensures !Enabled(c, s, a) {
      StillCannotMove(c, s, a);
    }
  }

  lemma FullIsStuck(c: Config)
    requires c.workers >= c.capacity + 2
    ensures Stuck(c, Filling(c, c.capacity))
  {
    var s := Filling(c, c.capacity);
    assert Holds(s, if c.capacity >= 1 then InInbox(1) else InRoutine(1), 1);
    assert Still(c, s);
    forall a | IsSystem(a) ensures !Enabled(c, s, a) {
      StillCannotMove(c, s, a);
    }
  }

  ghost predicate AlwaysProgresses(c: Config) {
    forall s :: Reachable(c, s) && Unfinished(s) ==> CanMove(c, s)
  }

  /** The dispatcher, the goroutines and the workers never come to rest with a submitted job
      left exactly when there is a worker and there is at most one worker more than the
      channels have room for. */
  lemma ProgressExactly(c: Config)
    ensures AlwaysProgresses(c) <==> 1 <= c.workers <= c.capacity + 1
  {
    if 1 <= c.workers <= c.capacity + 1 {
      forall s | Reachable(c, s) && Unfinished(s) ensures CanMove(c, s) {
        Progress(c, s);
      }
    } else if c.workers == 0 {
      AwaitingIsReachable(c);
      NoWorkerIsStuck(c);
    } else {
      FillingIsReachable(c, c.capacity);
      FullIsStuck(c);
    }
  }

  // ---- Blocked sends ----

  /** Every announcing worker finds room in the pool, every goroutine with a job room in the inbox. */
  ghost predicate NoneBlocked(c: Config, s: State) {
    && (forall w: nat :: IsAnnouncing(s, w) ==> |s.pool| < c.capacity)
    && (forall r: nat :: IsBound(s, r) ==> |s.workers[s.routines[r].pc.target].inbox| < c.capacity)
  }

  /** The first `k` workers have announced themselves. */
  function Announced(c: Config, k: nat): State {
    Init(c).(
      pool := seq(k, i => i),
      workers := seq(c.workers, i => Worker([], if i < k then Waiting else Announcing)))
  }

  lemma {:induction false} AnnouncedIsReachable(c: Config, k: nat)
    requires k <= c.capacity && k <= c.workers
    ensures Reachable(c, Announced(c, k))
  {
    if k == 0 {
      InitIsReachable(c);
      assert Announced(c, 0).workers == Init(c).workers;
      assert Announced(c, 0) == Init(c);
    } else {
      AnnouncedIsReachable(c, k - 1);
      var s := Announced(c, k - 1);
      assert IsAnnouncing(s, k - 1);
      assert DoAnnounce(s, k - 1).workers == Announced(c, k).workers;
      assert DoAnnounce(s, k - 1) == Announced(c, k);
      Go(c, s, Announce(k - 1), Announced(c, k));
    }
  }

  ghost predicate NeverBlocks(c: Config) {
    forall s :: Reachable(c, s) ==> NoneBlocked(c, s)
  }

  /** No worker and no dispatch goroutine is ever kept waiting for room exactly when there are no
      more workers than the channels have room for. */
  lemma NeverBlocksExactly(c: Config)
    ensures NeverBlocks(c) <==> c.workers <= c.capacity
  {
    if c.workers <= c.capacity {
      forall s | Reachable(c, s) ensures NoneBlocked(c, s) {
        NoSendBlocks(c, s);
      }
    } else {
      AnnouncedIsReachable(c, c.capacity);
      assert IsAnnouncing(Announced(c, c.capacity), c.capacity);
    }
  }
}
