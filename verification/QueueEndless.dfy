// The retry limit decides termination: a limit below one is never met, and a job whose
// first write keeps failing goes round for ever.
module QueueEndless {
  import opened Common
  import opened AppErrors
  import opened Jobs
  import opened Queue
  import opened QueueStuck
  import opened QueueTermination

  function Failures(n: nat): seq<ErrorCode> {
    seq(n, _ => InternalSqlError)
  }

  /** The first job has failed `n` times and a fresh goroutine carries it. */
  function Round(c: Config, n: nat): State {
    BothInserted(c).(
      jobs := [HostAt(if n == 0 then Created else Pending).(errors := Failures(n)), PortAt(Created)],
      handlers := [Handler(["m"], [], [1])],
      routines := seq(n + 1, i => Routine(0, if i == n then WritePending else Ended)))
  }

  lemma FirstRoundIsReachable(c: Config)
    ensures Reachable(c, Round(c, 0))
  {
    InsertedIsReachable(c);
    assert DoDispatch(DoSend(BothInserted(c), HandlerAgent(0))).routines == Round(c, 0).routines;
    assert DoDispatch(DoSend(BothInserted(c), HandlerAgent(0))).handlers == Round(c, 0).handlers;
    assert Failures(0) == [];
    assert Round(c, 0).jobs == BothInserted(c).jobs;
    assert DoDispatch(DoSend(BothInserted(c), HandlerAgent(0))) == Round(c, 0);
    Go(c, BothInserted(c), Handoff(HandlerAgent(0)), Round(c, 0));
  }

  function Refuse(n: nat): Action {
    Local(RoutineAgent(n), Wrote(Rejected))
  }

  function Append(n: nat): Action {
    Local(RoutineAgent(n), Nothing)
  }

  /** One round: the write fails, the error is appended, and the job is sent again. */
  lemma OneRound(c: Config, n: nat)
    requires c.maxFails < 1
    ensures Enabled(c, Round(c, n), Refuse(n))
    ensures var s1 := Next(c, Round(c, n), Refuse(n));
            Enabled(c, s1, Append(n)) &&
            var s2 := Next(c, s1, Append(n));
            Enabled(c, s2, Handoff(RoutineAgent(n))) && Next(c, s2, Handoff(RoutineAgent(n))) == Round(c, n + 1)
  {
    var s1 := RoutineLocal(c, Round(c, n), n, Wrote(Rejected));
    var s2 := RoutineLocal(c, s1, n, Nothing);
    assert s2.routines[n] == Routine(0, Erring(Requeue));
    assert s2.jobs[0].errors == Failures(n + 1);
    var s3 := DoDispatch(DoSend(s2, RoutineAgent(n)));
    assert s3.routines == Round(c, n + 1).routines;
    assert s3.jobs == Round(c, n + 1).jobs;
    assert s3 == Round(c, n + 1);
  }

  function Rounds(n: nat, k: nat): (actions: seq<Action>)
    ensures |actions| == 3 * k
    decreases k
  {
    if k == 0 then [] else [Refuse(n), Append(n), Handoff(RoutineAgent(n))] + Rounds(n + 1, k - 1)
  }

  lemma {:induction false} RoundsFollow(c: Config, n: nat, k: nat)
    requires c.maxFails < 1
    ensures Follows(c, Round(c, n), Rounds(n, k))
    decreases k
  {
    hide Enabled, Next, Round;
    if k > 0 {
      OneRound(c, n);
      RoundsFollow(c, n + 1, k - 1);
      var all, rest := Rounds(n, k), Rounds(n + 1, k - 1);
      assert all[1..][1..][1..] == rest;
      var s1 := Next(c, Round(c, n), Refuse(n));
      var s2 := Next(c, s1, Append(n));
      assert Follows(c, s2, all[1..][1..]);
      assert Follows(c, s1, all[1..]);
    }
  }

  lemma NoBound(c: Config, bound: nat)
    requires c.maxFails < 1
    ensures !BoundedFrom(c, Round(c, 0), bound)
  {
    RoundsFollow(c, 0, bound + 1);
    assert |Rounds(0, bound + 1)| > bound;
  }

  /** Between requests, no more than some number of steps. */
  ghost predicate BoundedFrom(c: Config, s: State, bound: nat) {
    forall actions :: Follows(c, s, actions) ==> |actions| <= bound
  }

  ghost predicate AlwaysTerminates(c: Config) {
    forall s :: Reachable(c, s) ==> exists bound :: BoundedFrom(c, s, bound)
  }

  /** The queue always comes to rest exactly when the retry limit is positive. */
  lemma TerminatesExactly(c: Config)
    ensures AlwaysTerminates(c) <==> c.maxFails >= 1
  {
    if c.maxFails >= 1 {
      forall s | Reachable(c, s) ensures exists bound :: BoundedFrom(c, s, bound) {
        forall actions | Follows(c, s, actions) ensures |actions| <= Potential(c.maxFails, s) {
          Terminates(c, s, actions);
        }
        assert BoundedFrom(c, s, Potential(c.maxFails, s));
      }
    } else {
      FirstRoundIsReachable(c);
      forall bound: nat ensures !BoundedFrom(c, Round(c, 0), bound) {
        NoBound(c, bound);
      }
    }
  }
}
