// Several replicas of the store over one committed log: they apply, take and persist
// snapshots, crash and restore, each at its own pace.
module Replicas {
  import opened Common
  import opened Store

  datatype Snap = Snap(store: Kv, index: nat)

  /** `taken` is a snapshot on its way to the sink. The map lives in memory only. */
  datatype Replica = Replica(m: Kv, applied: nat, taken: Option<Snap>)

  /** `persisted` are the snapshots whose sink was closed successfully. */
  datatype Cluster = Cluster(log: seq<Command>, replicas: seq<Replica>, persisted: set<Snap>)

  datatype Step =
    | Commit(command: Command)
    | ApplyNext(i: nat)
    | Take(i: nat)
    | Persist(i: nat)
    | PersistFails(i: nat)
    | Crash(i: nat)
    | RestoreFrom(i: nat, snap: Snap)
    | RestoreFails(i: nat, snap: Snap)

  predicate Allowed(c: Cluster, step: Step) {
    match step
    case Commit(_) => true
    case ApplyNext(i) => i < |c.replicas| && c.replicas[i].applied < |c.log|
    case Take(i) => i < |c.replicas|
    case Persist(i) => i < |c.replicas| && c.replicas[i].taken.Some?
    case PersistFails(i) => i < |c.replicas| && c.replicas[i].taken.Some?
    case Crash(i) => i < |c.replicas|
    case RestoreFrom(i, snap) => i < |c.replicas| && snap in c.persisted
    case RestoreFails(i, snap) => i < |c.replicas| && snap in c.persisted
  }

  function With(c: Cluster, i: nat, r: Replica): Cluster
    requires i < |c.replicas|
  {
    c.(replicas := c.replicas[i := r])
  }

  function Do(c: Cluster, step: Step): Cluster
    requires Allowed(c, step)
  {
    match step
    case Commit(command) => c.(log := c.log + [command])
    case ApplyNext(i) =>
      var r := c.replicas[i];
      With(c, i, r.(m := ApplyTo(r.m, c.log[r.applied]), applied := r.applied + 1))
    case Take(i) => With(c, i, c.replicas[i].(taken := Some(Snap(c.replicas[i].m, c.replicas[i].applied))))
    case Persist(i) =>
      With(c, i, c.replicas[i].(taken := None)).(persisted := c.persisted + {c.replicas[i].taken.value})
    case PersistFails(i) => With(c, i, c.replicas[i].(taken := None))
    case Crash(i) => With(c, i, Replica(map[], 0, None))
    case RestoreFrom(i, snap) => With(c, i, c.replicas[i].(m := snap.store, applied := snap.index))
    case RestoreFails(i, snap) => c
  }

  function Start(n: nat): Cluster {
    Cluster([], seq(n, _ => Replica(map[], 0, None)), {})
  }

  ghost predicate Steps(c: Cluster, steps: seq<Step>)
    decreases |steps|
  {
    steps == [] || (Allowed(c, steps[0]) && Steps(Do(c, steps[0]), steps[1..]))
  }

  ghost function End(c: Cluster, steps: seq<Step>): Cluster
    requires Steps(c, steps)
    decreases |steps|
  {
    if steps == [] then c else End(Do(c, steps[0]), steps[1..])
  }

  // ---- The invariant ----

  ghost predicate IsPrefixReplay(log: seq<Command>, m: Kv, index: nat) {
    index <= |log| && m == Replay(log[..index])
  }

  ghost predicate Valid(c: Cluster) {
    && (forall i :: 0 <= i < |c.replicas| ==> IsPrefixReplay(c.log, c.replicas[i].m, c.replicas[i].applied))
    && (forall i :: 0 <= i < |c.replicas| && c.replicas[i].taken.Some? ==>
          IsPrefixReplay(c.log, c.replicas[i].taken.value.store, c.replicas[i].taken.value.index))
    && (forall snap <- c.persisted :: IsPrefixReplay(c.log, snap.store, snap.index))
  }

  lemma CommitKeepsReplay(log: seq<Command>, command: Command, m: Kv, index: nat)
    requires IsPrefixReplay(log, m, index)
    ensures IsPrefixReplay(log + [command], m, index)
  {
    assert (log + [command])[..index] == log[..index];
  }

  lemma ApplyExtendsReplay(log: seq<Command>, m: Kv, index: nat)
    requires IsPrefixReplay(log, m, index) && index < |log|
    ensures IsPrefixReplay(log, ApplyTo(m, log[index]), index + 1)
  {
    assert log[..index + 1] == log[..index] + [log[index]];
    ReplayConcat(map[], log[..index], [log[index]]);
  }

  lemma StepKeepsValid(c: Cluster, step: Step)
    requires Valid(c) && Allowed(c, step)
    ensures Valid(Do(c, step))
  {
    match step
    case Commit(command) =>
      forall m, index | IsPrefixReplay(c.log, m, index) ensures IsPrefixReplay(c.log + [command], m, index) {
        CommitKeepsReplay(c.log, command, m, index);
      }
    case ApplyNext(i) => ApplyExtendsReplay(c.log, c.replicas[i].m, c.replicas[i].applied);
    case _ =>
  }

  lemma {:induction false} StepsKeepValid(c: Cluster, steps: seq<Step>)
    requires Valid(c) && Steps(c, steps)
    ensures Valid(End(c, steps)) && |End(c, steps).replicas| == |c.replicas| && c.log <= End(c, steps).log
    decreases |steps|
  {
    if steps != [] {
      StepKeepsValid(c, steps[0]);
      StepsKeepValid(Do(c, steps[0]), steps[1..]);
    }
  }

  /** Over every run of commits, applies, snapshots, crashes and restores, each replica's map is the
      replay of the prefix it has applied, and replicas at the same index agree on every key. */
  lemma ReplicasAgree(n: nat, steps: seq<Step>)
    requires Steps(Start(n), steps)
    ensures var c := End(Start(n), steps);
            && |c.replicas| == n
            && (forall i :: 0 <= i < n ==>
                  c.replicas[i].applied <= |c.log| && c.replicas[i].m == Replay(c.log[..c.replicas[i].applied]))
            && (forall i, k :: 0 <= i < n && 0 <= k < n && c.replicas[i].applied == c.replicas[k].applied ==>
                  c.replicas[i].m == c.replicas[k].m)
  {
    StepsKeepValid(Start(n), steps);
  }

  // ---- What each step achieves ----

  /** Everything but replica `i` is as it was. */
  ghost predicate Spares(c: Cluster, c': Cluster, i: nat) {
    && c'.log == c.log && |c'.replicas| == |c.replicas|
    && forall k :: 0 <= k < |c.replicas| && k != i ==> c'.replicas[k] == c.replicas[k]
  }

  /** Replica `r` holds what the first `n` committed commands amount to. */
  ghost predicate Holds(r: Replica, log: seq<Command>, n: nat) {
    r.applied == n <= |log| && r.m == Replay(log[..n])
  }

  /** In every reachable cluster a step brings about what it is for: an apply takes one more command
      in, a crash loses the map, a restore brings back that of the snapshot, and a snapshot that is
      taken and persisted is that of the replica when it was taken. */
  ghost predicate Achieves(c: Cluster, step: Step, c': Cluster) {
    match step
    case Commit(command) => c'.log == c.log + [command] && c'.replicas == c.replicas && c'.persisted == c.persisted
    case ApplyNext(i) =>
      && Spares(c, c', i) && c'.persisted == c.persisted && i < |c'.replicas| && i < |c.replicas|
      && Holds(c'.replicas[i], c.log, c.replicas[i].applied + 1) && c'.replicas[i].taken == c.replicas[i].taken
    case Take(i) =>
      && Spares(c, c', i) && c'.persisted == c.persisted && i < |c'.replicas| && i < |c.replicas|
      && Holds(c'.replicas[i], c.log, c.replicas[i].applied) && IsTaken(c'.replicas[i], c.log, c.replicas[i].applied)
    case Persist(i) =>
      && Spares(c, c', i) && i < |c'.replicas| && i < |c.replicas|
      && Holds(c'.replicas[i], c.log, c.replicas[i].applied) && c'.replicas[i].taken == None
      && c.replicas[i].taken.Some?
      && forall snap :: snap in c'.persisted <==> snap in c.persisted || snap == c.replicas[i].taken.value
    case PersistFails(i) =>
      && Spares(c, c', i) && c'.persisted == c.persisted && i < |c'.replicas| && i < |c.replicas|
      && Holds(c'.replicas[i], c.log, c.replicas[i].applied) && c'.replicas[i].taken == None
    case Crash(i) =>
      && Spares(c, c', i) && c'.persisted == c.persisted && i < |c'.replicas|
      && c'.replicas[i].m == map[] && c'.replicas[i].applied == 0 && c'.replicas[i].taken == None
    case RestoreFrom(i, snap) =>
      && Spares(c, c', i) && c'.persisted == c.persisted && i < |c'.replicas| && i < |c.replicas|
      && Holds(c'.replicas[i], c.log, snap.index) && c'.replicas[i].taken == c.replicas[i].taken
    case RestoreFails(_, _) => c' == c
  }

  /** The snapshot on its way to the sink is that of the first `n` commands. */
  ghost predicate IsTaken(r: Replica, log: seq<Command>, n: nat) {
    n <= |log| && r.taken.Some? && r.taken.value.index == n && r.taken.value.store == Replay(log[..n])
  }

  lemma StepAchieves(n: nat, steps: seq<Step>, step: Step)
    requires Steps(Start(n), steps) && Allowed(End(Start(n), steps), step)
    ensures Achieves(End(Start(n), steps), step, Do(End(Start(n), steps), step))
  {
    StepsKeepValid(Start(n), steps);
    var c := End(Start(n), steps);
    match step
    case ApplyNext(i) => ApplyExtendsReplay(c.log, c.replicas[i].m, c.replicas[i].applied);
    case RestoreFrom(i, snap) => assert IsPrefixReplay(c.log, snap.store, snap.index);
    case _ =>
  }

  /** The snapshot a replica takes is the one it then persists, at whatever index. */
  lemma TakenIsPersisted(n: nat, steps: seq<Step>, i: nat)
    requires Steps(Start(n), steps) && i < n
    ensures var c := End(Start(n), steps);
            && |c.replicas| == n && c.replicas[i].applied <= |c.log|
            && Steps(c, [Take(i), Persist(i)])
            && var c' := End(c, [Take(i), Persist(i)]);
               c'.persisted == c.persisted + {Snap(Replay(c.log[..c.replicas[i].applied]), c.replicas[i].applied)}
  {
    ReplicasAgree(n, steps);
    var c := End(Start(n), steps);
    var c1 := Do(c, Take(i));
    StepAchieves(n, steps, Take(i));
    assert [Take(i), Persist(i)][1..] == [Persist(i)] && [Persist(i)][1..] == [];
    assert Steps(c1, [Persist(i)]);
    assert End(c1, [Persist(i)]) == Do(c1, Persist(i));
    var snap := c1.replicas[i].taken.value;
    assert Do(c1, Persist(i)).persisted == c.persisted + {snap};
  }

  function Applies(i: nat, k: nat): (steps: seq<Step>)
    ensures |steps| == k
  {
    seq(k, _ => ApplyNext(i))
  }

  lemma {:induction false} ApplyingReaches(c: Cluster, i: nat, k: nat)
    requires Valid(c) && i < |c.replicas| && c.replicas[i].applied + k <= |c.log|
    ensures Steps(c, Applies(i, k))
    ensures var c' := End(c, Applies(i, k));
            Spares(c, c', i) && c'.persisted == c.persisted && Holds(c'.replicas[i], c.log, c.replicas[i].applied + k)
    decreases k
  {
    if k > 0 {
      var c1 := Do(c, ApplyNext(i));
      ApplyExtendsReplay(c.log, c.replicas[i].m, c.replicas[i].applied);
      StepKeepsValid(c, ApplyNext(i));
      assert Applies(i, k)[1..] == Applies(i, k - 1);
      ApplyingReaches(c1, i, k - 1);
    }
  }

  /** Applying the commands it lacks brings any replica to the replay of the whole log. */
  lemma EveryReplicaCatchesUp(n: nat, steps: seq<Step>, i: nat)
    requires Steps(Start(n), steps) && i < n
    ensures var c := End(Start(n), steps);
            && |c.replicas| == n && c.replicas[i].applied <= |c.log|
            && var rest := Applies(i, |c.log| - c.replicas[i].applied);
               && Steps(c, rest)
               && Spares(c, End(c, rest), i)
               && Holds(End(c, rest).replicas[i], c.log, |c.log|)
               && End(c, rest).replicas[i].m == Replay(c.log)
  {
    StepsKeepValid(Start(n), steps);
    var c := End(Start(n), steps);
    assert IsPrefixReplay(c.log, c.replicas[i].m, c.replicas[i].applied);
    ApplyingReaches(c, i, |c.log| - c.replicas[i].applied);
    assert c.log[..|c.log|] == c.log;
  }

  lemma {:induction false} StepsConcat(c: Cluster, a: seq<Step>, b: seq<Step>)
    requires Steps(c, a) && Steps(End(c, a), b)
    ensures Steps(c, a + b) && End(c, a + b) == End(End(c, a), b)
    decreases |a|
  {
    if a == [] {
      assert a + b == b;
    } else {
      assert (a + b)[1..] == a[1..] + b;
      StepsConcat(Do(c, a[0]), a[1..], b);
    }
  }

  /** A replica that crashes recovers from any persisted snapshot: restored from it, it needs only the
      commands after the snapshot to hold the replay of the whole log again. */
  lemma CrashedReplicaRecovers(n: nat, steps: seq<Step>, i: nat, snap: Snap)
    requires Steps(Start(n), steps) && i < n && snap in End(Start(n), steps).persisted
    ensures var c := End(Start(n), steps);
            && snap.index <= |c.log|
            && var rest := [Crash(i), RestoreFrom(i, snap)] + Applies(i, |c.log| - snap.index);
               && Steps(c, rest)
               && Spares(c, End(c, rest), i) && End(c, rest).persisted == c.persisted
               && i < |c.replicas| && Holds(End(c, rest).replicas[i], c.log, |c.log|)
  {
    StepsKeepValid(Start(n), steps);
    var c := End(Start(n), steps);
    assert IsPrefixReplay(c.log, snap.store, snap.index);
    var c1 := Do(c, Crash(i));
    var c2 := Do(c1, RestoreFrom(i, snap));
    StepKeepsValid(c, Crash(i));
    StepKeepsValid(c1, RestoreFrom(i, snap));
    var first := [Crash(i), RestoreFrom(i, snap)];
    assert first[1..] == [RestoreFrom(i, snap)] && first[1..][1..] == [];
    assert Steps(c2, first[1..][1..]) && End(c2, first[1..][1..]) == c2;
    assert Steps(c1, first[1..]) && End(c1, first[1..]) == c2;
    ApplyingReaches(c2, i, |c.log| - snap.index);
    StepsConcat(c, first, Applies(i, |c.log| - snap.index));
  }

  /** A replica that lags needs only the missing entries to catch up with one that is ahead. */
  lemma LaggardCatchesUp(n: nat, steps: seq<Step>, i: nat, k: nat)
    requires Steps(Start(n), steps) && i < n && k < n
    requires var c := End(Start(n), steps);
             |c.replicas| == n && c.replicas[i].applied <= c.replicas[k].applied <= |c.log|
    ensures var c := End(Start(n), steps);
            ReplayFrom(c.replicas[i].m, c.log[c.replicas[i].applied..c.replicas[k].applied]) == c.replicas[k].m
  {
    ReplicasAgree(n, steps);
    var c := End(Start(n), steps);
    var prefix := c.log[..c.replicas[k].applied];
    SnapshotAndSuffix(prefix, c.replicas[i].applied);
    assert prefix[..c.replicas[i].applied] == c.log[..c.replicas[i].applied];
    assert prefix[c.replicas[i].applied..] == c.log[c.replicas[i].applied..c.replicas[k].applied];
  }
}
