// The replicated key/value store: the state machine that raft drives, and what replaying
// its log amounts to.
module Store {
  import opened Common

  type Kv = map<string, string>

  datatype Command = Set(bucket: string, key: string, value: string) | Del(bucket: string, key: string)

  /** What a log entry decodes to. */
  datatype Entry = Encoded(command: Command) | UnknownAct | Undecodable

  // ---- The effect of a log ----

  /** The bucket plays no part. */
  function ApplyTo(m: Kv, c: Command): Kv {
    match c
    case Set(_, k, v) => m[k := v]
    case Del(_, k) => m - {k}
  }

  function ReplayFrom(m: Kv, log: seq<Command>): Kv {
    if log == [] then m else ApplyTo(ReplayFrom(m, log[..|log| - 1]), log[|log| - 1])
  }

  function Replay(log: seq<Command>): Kv {
    ReplayFrom(map[], log)
  }

  lemma {:induction false} ReplayConcat(m: Kv, a: seq<Command>, b: seq<Command>)
    ensures ReplayFrom(m, a + b) == ReplayFrom(ReplayFrom(m, a), b)
  {
    if b == [] {
      assert a + b == a;
    } else {
      assert (a + b)[..|a + b| - 1] == a + b[..|b| - 1];
      ReplayConcat(m, a, b[..|b| - 1]);
    }
  }

  /** A snapshot of a prefix and the rest of the log make up the whole. */
  lemma SnapshotAndSuffix(log: seq<Command>, i: nat)
    requires i <= |log|
    ensures ReplayFrom(Replay(log[..i]), log[i..]) == Replay(log)
  {
    ReplayConcat(map[], log[..i], log[i..]);
    assert log[..i] + log[i..] == log;
  }

  /** What a client reads: a missing key reads as the empty string. */
  function Read(m: Kv, key: string): string {
    if key in m then m[key] else ""
  }

  // ---- The store object ----

  class Fsm {
    var m: Kv

    constructor ()
      ensures m == map[]
    {
      m := map[];
    }

    method Get(key: string) returns (value: string)
      ensures value == Read(m, key)
    {
      return if key in m then m[key] else "";
    }

    /** Panics on an entry that no Set or Del could have written. */
    method Apply(entry: Entry) returns (panicked: bool)
      modifies this
      ensures panicked <==> !entry.Encoded?
      ensures m == if entry.Encoded? then ApplyTo(old(m), entry.command) else old(m)
    {
      match entry {
        case Encoded(Set(_, key, value)) =>
          m := m[key := value];
          panicked := false;
        case Encoded(Del(_, key)) =>
          m := m - {key};
          panicked := false;
        case _ =>
          panicked := true;
      }
    }

    /** The copy is taken key by key, in no particular order. */
    method Snapshot() returns (storeCopy: Kv)
      ensures storeCopy == m
    {
      storeCopy := map[];
      var left := m.Keys;
      while left != {}
        invariant left <= m.Keys && storeCopy.Keys == m.Keys - left
        invariant forall k <- storeCopy :: storeCopy[k] == m[k]
        decreases left
      {
        var k :| k in left;
        storeCopy := storeCopy[k := m[k]];
        left := left - {k};
      }
    }

    /** A snapshot that cannot be decoded changes nothing. */
    method Restore(decoded: Option<Kv>) returns (ok: bool)
      modifies this
      ensures ok <==> decoded.Some?
      ensures m == if decoded.Some? then decoded.value else old(m)
    {
      if decoded == None {
        return false;
      }
      m := decoded.value;
      return true;
    }
  }

  // ---- Only the last command on a key matters ----

  function LastOn(log: seq<Command>, k: string): Option<Command> {
    if log == [] then None
    else if log[|log| - 1].key == k then Some(log[|log| - 1])
    else LastOn(log[..|log| - 1], k)
  }

  /** What a command leaves under its key. */
  function Leaves(c: Option<Command>): Option<string> {
    if c.Some? && c.value.Set? then Some(c.value.value) else None
  }

  function Lookup(m: Kv, k: string): Option<string> {
    if k in m then Some(m[k]) else None
  }

  lemma {:induction false} LookupIsLast(log: seq<Command>, k: string)
    ensures Lookup(Replay(log), k) == Leaves(LastOn(log, k))
  {
    if log != [] {
      LookupIsLast(log[..|log| - 1], k);
    }
  }

  lemma SameLookups(a: Kv, b: Kv)
    requires forall k :: Lookup(a, k) == Lookup(b, k)
    ensures a == b
  {
    forall k | k in a ensures k in b && b[k] == a[k] {
      assert Lookup(a, k) == Lookup(b, k);
    }
    forall k | k in b ensures k in a {
      assert Lookup(a, k) == Lookup(b, k);
    }
  }

  ghost predicate SameLast(a: seq<Command>, b: seq<Command>) {
    forall k :: Leaves(LastOn(a, k)) == Leaves(LastOn(b, k))
  }

  /** Two logs replay to the same map exactly when, on every key, their last commands leave the same. */
  lemma SameReplayExactly(a: seq<Command>, b: seq<Command>)
    ensures Replay(a) == Replay(b) <==> SameLast(a, b)
  {
    if Replay(a) == Replay(b) {
      forall k ensures Leaves(LastOn(a, k)) == Leaves(LastOn(b, k)) {
        LookupIsLast(a, k);
        LookupIsLast(b, k);
      }
    } else if SameLast(a, b) {
      forall k ensures Lookup(Replay(a), k) == Lookup(Replay(b), k) {
        LookupIsLast(a, k);
        LookupIsLast(b, k);
      }
      SameLookups(Replay(a), Replay(b));
    }
  }

  function Text(c: Option<Command>): string {
    if c.Some? && c.value.Set? then c.value.value else ""
  }

  lemma ReadIsText(log: seq<Command>, k: string)
    ensures Read(Replay(log), k) == Text(LastOn(log, k))
  {
    LookupIsLast(log, k);
  }

  ghost predicate SameReads(a: Kv, b: Kv) {
    forall k :: Read(a, k) == Read(b, k)
  }

  ghost predicate SameTexts(a: seq<Command>, b: seq<Command>) {
    forall k :: Text(LastOn(a, k)) == Text(LastOn(b, k))
  }

  /** Clients cannot tell two logs apart exactly when, on every key, their last commands leave the
      same text, a deletion leaving the same as a set to the empty string. */
  lemma SameReadsExactly(a: seq<Command>, b: seq<Command>)
    ensures SameReads(Replay(a), Replay(b)) <==> SameTexts(a, b)
  {
    forall k ensures Read(Replay(a), k) == Text(LastOn(a, k)) {
      ReadIsText(a, k);
    }
    forall k ensures Read(Replay(b), k) == Text(LastOn(b, k)) {
      ReadIsText(b, k);
    }
  }

  // ---- Reordering ----

  /** The commands on one key, in order. */
  function OnKey(log: seq<Command>, k: string): seq<Command> {
    if log == [] then []
    else OnKey(log[..|log| - 1], k) + if log[|log| - 1].key == k then [log[|log| - 1]] else []
  }

  lemma {:induction false} LastOfKey(log: seq<Command>, k: string)
    ensures LastOn(log, k) == (if OnKey(log, k) == [] then None else Some(OnKey(log, k)[|OnKey(log, k)| - 1]))
  {
    if log != [] {
      LastOfKey(log[..|log| - 1], k);
    }
  }

  lemma {:induction false} OccurrencesOnKey(log: seq<Command>, c: Command)
    ensures multiset(log)[c] == multiset(OnKey(log, c.key))[c]
  {
    if log != [] {
      OccurrencesOnKey(log[..|log| - 1], c);
      assert log == log[..|log| - 1] + [log[|log| - 1]];
    }
  }

  /** A log that has the same commands in the same order on every key is a permutation of the
      other, and replays to the same map. */
  lemma PerKeyOrderSuffices(a: seq<Command>, b: seq<Command>)
    requires forall k :: OnKey(a, k) == OnKey(b, k)
    ensures multiset(a) == multiset(b)
    ensures Replay(a) == Replay(b)
  {
    forall c ensures multiset(a)[c] == multiset(b)[c] {
      OccurrencesOnKey(a, c);
      OccurrencesOnKey(b, c);
      assert OnKey(a, c.key) == OnKey(b, c.key);
    }
    forall k ensures Leaves(LastOn(a, k)) == Leaves(LastOn(b, k)) {
      LastOfKey(a, k);
      LastOfKey(b, k);
      assert OnKey(a, k) == OnKey(b, k);
    }
    SameReplayExactly(a, b);
  }

  /** The log reduced to the last command on each key. */
  function Compact(log: seq<Command>): seq<Command> {
    if log == [] then []
    else Dropping(Compact(log[..|log| - 1]), log[|log| - 1].key) + [log[|log| - 1]]
  }

  function Dropping(log: seq<Command>, k: string): seq<Command> {
    if log == [] then []
    else Dropping(log[..|log| - 1], k) + if log[|log| - 1].key == k then [] else [log[|log| - 1]]
  }

  lemma {:induction false} DroppingKey(log: seq<Command>, k: string, k': string)
    ensures OnKey(Dropping(log, k), k') == if k == k' then [] else OnKey(log, k')
  {
    if log != [] {
      var init, c := log[..|log| - 1], log[|log| - 1];
      DroppingKey(init, k, k');
      if c.key != k {
        assert (Dropping(init, k) + [c])[..|Dropping(init, k)|] == Dropping(init, k);
      } else {
        assert Dropping(log, k) == Dropping(init, k);
      }
    }
  }

  lemma {:induction false} CompactKey(log: seq<Command>, k: string)
    ensures OnKey(Compact(log), k) == if LastOn(log, k) == None then [] else [LastOn(log, k).value]
  {
    if log != [] {
      var init, c := log[..|log| - 1], log[|log| - 1];
      CompactKey(init, k);
      var w := Dropping(Compact(init), c.key);
      DroppingKey(Compact(init), c.key, k);
      assert (w + [c])[..|w|] == w;
    }
  }

  /** The reduced log has one command for each key that the log touches, its last, and replays
      to the same map. */
  lemma CompactionPreservesReplay(log: seq<Command>)
    ensures Replay(Compact(log)) == Replay(log)
    ensures forall k :: OnKey(Compact(log), k) == if LastOn(log, k) == None then [] else [LastOn(log, k).value]
  {
    forall k
      ensures Leaves(LastOn(Compact(log), k)) == Leaves(LastOn(log, k))
      ensures OnKey(Compact(log), k) == if LastOn(log, k) == None then [] else [LastOn(log, k).value]
    {
      CompactKey(log, k);
      LastOfKey(Compact(log), k);
    }
    SameReplayExactly(Compact(log), log);
  }
}
