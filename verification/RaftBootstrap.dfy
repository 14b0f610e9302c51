// Reconnecting to the configured nodes: joining all of them, in the arbitrary order in
// which a Go map is walked, and skipping the ones that fail when configured so.
module RaftBootstrap {
  import opened Common
  import opened RaftJoin

  // ---- A series of joins ----

  /** `joined` are the nodes whose join reported success; `aborted` tells that a failure ended the loop. */
  datatype Booted = Booted(live: seq<Server>, trail: seq<seq<Server>>, joined: set<Server>, aborted: bool)

  function JoinAll(live: seq<Server>, order: seq<Server>, replies: NodeId -> JoinReplies, skip: bool): Booted {
    if order == [] then Booted(live, [live], {}, false)
    else
      var b := JoinAll(live, order[..|order| - 1], replies, skip);
      var node := order[|order| - 1];
      if b.aborted then b
      else
        var j := Join(b.live, node, replies(node.id));
        Booted(j.live, b.trail + j.trail, if j.ok then b.joined + {node} else b.joined, !j.ok && !skip)
  }

  ghost predicate NoConflicts(nodes: set<Server>) {
    forall a, b :: a in nodes && b in nodes && a != b ==> !Conflicts(a, b)
  }

  ghost predicate DistinctIds(nodes: set<Server>) {
    forall a, b :: a in nodes && b in nodes && a != b ==> a.id != b.id
  }

  ghost predicate DistinctAddrs(nodes: set<Server>) {
    forall a, b :: a in nodes && b in nodes && a != b ==> a.addr != b.addr
  }

  ghost predicate NoRepeats(order: seq<Server>) {
    forall i, k :: 0 <= i < k < |order| ==> order[i] != order[k]
  }

  /** The order visits every node once. */
  ghost predicate IsOrder(order: seq<Server>, nodes: set<Server>) {
    ToSet(order) == nodes && |order| == |nodes|
  }

  // ---- Partial failure ----

  ghost predicate ClearOf(s: Server, nodes: seq<Server>) {
    forall n <- nodes :: !Conflicts(s, n)
  }

  /** Ids and addresses are unique, old servers that no node conflicts with are there, and nothing
      is there but old servers and nodes. */
  ghost predicate Sound(live: seq<Server>, order: seq<Server>, x: seq<Server>) {
    && Unique(x)
    && (forall s <- live :: ClearOf(s, order) ==> s in x)
    && (forall s <- x :: s in live || s in order)
  }

  lemma SoundGrows(live: seq<Server>, order: seq<Server>, node: Server, x: seq<Server>)
    requires Sound(live, order, x)
    ensures Sound(live, order + [node], x)
  {
    forall s | s in live && ClearOf(s, order + [node]) ensures s in x {
      forall n | n in order ensures !Conflicts(s, n) {
        assert n in order + [node];
      }
    }
  }

  lemma SoundJoin(live: seq<Server>, order: seq<Server>, node: Server, x: seq<Server>, y: seq<Server>)
    requires Sound(live, order, x) && Between(x, node, y)
    ensures Sound(live, order + [node], y)
  {
    forall s | s in live && ClearOf(s, order + [node]) ensures s in y {
      forall n | n in order ensures !Conflicts(s, n) {
        assert n in order + [node];
      }
      assert node in order + [node];
    }
  }

  lemma LastIsNew(order: seq<Server>)
    requires NoRepeats(order) && order != []
    ensures order[|order| - 1] !in order[..|order| - 1]
  {
  }

  ghost predicate Safe(live: seq<Server>, order: seq<Server>, b: Booted) {
    && b.trail != [] && b.trail[|b.trail| - 1] == b.live
    && (forall x <- b.trail :: Sound(live, order, x))
    && b.joined <= ToSet(order)
    && (NoConflicts(ToSet(order)) ==> forall n <- b.joined :: n in b.live)
  }

  lemma SafeSkips(live: seq<Server>, order: seq<Server>, node: Server, b: Booted)
    requires Safe(live, order, b)
    ensures Safe(live, order + [node], b)
  {
    assert ToSet(order + [node]) == ToSet(order) + {node};
    forall x | x in b.trail ensures Sound(live, order + [node], x) {
      SoundGrows(live, order, node, x);
    }
  }

  lemma JoinedStay(live: seq<Server>, order: seq<Server>, node: Server, b: Booted, j: Joined)
    requires Safe(live, order, b) && node !in order && NoConflicts(ToSet(order + [node]))
    requires GoodJoin(b.live, node, j)
    ensures forall n <- b.joined :: n in j.live
  {
    assert ToSet(order + [node]) == ToSet(order) + {node};
    assert j.live in j.trail;
    forall n | n in b.joined ensures n in j.live {
      assert n in ToSet(order + [node]) && node in ToSet(order + [node]);
      assert n != node && !Conflicts(n, node);
    }
  }

  lemma SafeJoin(live: seq<Server>, order: seq<Server>, node: Server, b: Booted, j: Joined, aborted: bool)
    requires Safe(live, order, b) && node !in order
    requires GoodJoin(b.live, node, j)
    ensures Safe(live, order + [node],
                 Booted(j.live, b.trail + j.trail, if j.ok then b.joined + {node} else b.joined, aborted))
  {
    assert ToSet(order + [node]) == ToSet(order) + {node};
    assert b.live in b.trail;
    forall x | x in b.trail ensures Sound(live, order + [node], x) {
      SoundGrows(live, order, node, x);
    }
    forall x | x in j.trail ensures Sound(live, order + [node], x) {
      SoundJoin(live, order, node, b.live, x);
    }
    assert j.ok ==> node in ToSet(j.live);
    if NoConflicts(ToSet(order + [node])) {
      JoinedStay(live, order, node, b, j);
    }
  }

  /** With removals, additions and look-ups failing as they like, and failed joins skipped or not,
      every configuration on the way is sound, and when no two nodes conflict the last one has
      every node whose join succeeded. JoinedStayExactly says that this needs the condition. */
  lemma {:induction false} PartialFailureIsSafe(live: seq<Server>, order: seq<Server>, replies: NodeId -> JoinReplies, skip: bool)
    requires Unique(live) && NoRepeats(order)
    ensures Safe(live, order, JoinAll(live, order, replies, skip))
  {
    if order != [] {
      var init, node := order[..|order| - 1], order[|order| - 1];
      assert order == init + [node];
      PartialFailureIsSafe(live, init, replies, skip);
      var b := JoinAll(live, init, replies, skip);
      if b.aborted {
        SafeSkips(live, init, node, b);
      } else {
        assert b.live in b.trail;
        JoinIsGood(b.live, node, replies(node.id));
        LastIsNew(order);
        var j := Join(b.live, node, replies(node.id));
        SafeJoin(live, init, node, b, j, !j.ok && !skip);
      }
    }
  }

  // ---- Success in any order ----

  function Settle(before: set<Server>, order: seq<Server>): set<Server> {
    if order == [] then before else JoinTarget(Settle(before, order[..|order| - 1]), order[|order| - 1])
  }

  /** When all joins succeed the configuration is the one the order settles on. */
  lemma {:induction false} SuccessSettles(live: seq<Server>, order: seq<Server>, replies: NodeId -> JoinReplies, skip: bool)
    requires Unique(live)
    requires var b := JoinAll(live, order, replies, skip); !b.aborted && forall n <- order :: n in b.joined
    requires NoRepeats(order)
    ensures ToSet(JoinAll(live, order, replies, skip).live) == Settle(ToSet(live), order)
  {
    if order != [] {
      var init, node := order[..|order| - 1], order[|order| - 1];
      assert order == init + [node];
      var b := JoinAll(live, init, replies, skip);
      PartialFailureIsSafe(live, init, replies, skip);
      LastIsNew(order);
      forall n | n in init ensures n in b.joined {
        assert n in order;
      }
      SuccessSettles(live, init, replies, skip);
      assert b.live in b.trail;
      JoinIsGood(b.live, node, replies(node.id));
      assert node in order && node !in ToSet(init);
    }
  }

  /** The nodes, and the old servers that share no id and no address with any of them. */
  function Target(before: set<Server>, nodes: set<Server>): set<Server> {
    nodes + (set s | s in before && forall n <- nodes :: !Conflicts(s, n))
  }

  lemma TargetGrows(before: set<Server>, nodes: set<Server>, node: Server)
    requires forall n <- nodes :: !Conflicts(n, node)
    ensures JoinTarget(Target(before, nodes), node) == Target(before, nodes + {node})
  {
    forall s ensures s in JoinTarget(Target(before, nodes), node) <==> s in Target(before, nodes + {node}) {
    }
  }

  lemma {:induction false} SettlesOnTarget(before: set<Server>, order: seq<Server>)
    requires NoConflicts(ToSet(order)) && NoRepeats(order)
    ensures Settle(before, order) == Target(before, ToSet(order))
  {
    hide JoinTarget;
    if order == [] {
      assert ToSet(order) == {};
    } else {
      var init, node := order[..|order| - 1], order[|order| - 1];
      assert order == init + [node];
      assert ToSet(order) == ToSet(init) + {node};
      SettlesOnTarget(before, init);
      LastIsNew(order);
      assert node !in ToSet(init);
      TargetGrows(before, ToSet(init), node);
    }
  }

  lemma {:induction false} OrderIsDistinct(order: seq<Server>, nodes: set<Server>)
    requires IsOrder(order, nodes)
    ensures NoRepeats(order)
  {
    if order != [] {
      var init, node := order[..|order| - 1], order[|order| - 1];
      assert order == init + [node];
      assert ToSet(order) == ToSet(init) + {node};
      SetOfSeqIsSmall(init);
      assert node !in ToSet(init);
      assert IsOrder(init, ToSet(init));
      OrderIsDistinct(init, ToSet(init));
    }
  }

  lemma {:induction false} SetOfSeqIsSmall(order: seq<Server>)
    ensures |ToSet(order)| <= |order|
  {
    if order == [] {
      assert ToSet(order) == {};
    } else {
      var init, node := order[..|order| - 1], order[|order| - 1];
      assert order == init + [node];
      assert ToSet(order) == ToSet(init) + {node};
      SetOfSeqIsSmall(init);
    }
  }

  /** Joining all nodes successfully, in whatever order, ends in the same configuration: the nodes and
      the old servers that conflict with none. */
  lemma RejoinIsConfluent(live: seq<Server>, nodes: set<Server>, order: seq<Server>, replies: NodeId -> JoinReplies, skip: bool)
    requires Unique(live) && NoConflicts(nodes) && IsOrder(order, nodes)
    requires var b := JoinAll(live, order, replies, skip); !b.aborted && b.joined == nodes
    ensures ToSet(JoinAll(live, order, replies, skip).live) == Target(ToSet(live), nodes)
  {
    OrderIsDistinct(order, nodes);
    forall n | n in order ensures n in JoinAll(live, order, replies, skip).joined {
      assert n in ToSet(order);
    }
    SuccessSettles(live, order, replies, skip);
    SettlesOnTarget(ToSet(live), order);
  }

  ghost predicate Acks(replies: JoinReplies) {
    replies.configuration && replies.add.Acked() && forall id :: replies.remove(id).Acked()
  }

  ghost predicate AlwaysAcks(replies: NodeId -> JoinReplies) {
    forall id :: Acks(replies(id))
  }

  /** A leader that acknowledges everything lets every node join. */
  lemma {:induction false} EveryoneJoins(live: seq<Server>, order: seq<Server>, replies: NodeId -> JoinReplies, skip: bool)
    requires AlwaysAcks(replies)
    ensures var b := JoinAll(live, order, replies, skip); !b.aborted && b.joined == ToSet(order)
  {
    if order != [] {
      var init, node := order[..|order| - 1], order[|order| - 1];
      assert order == init + [node];
      assert ToSet(order) == ToSet(init) + {node};
      EveryoneJoins(live, init, replies, skip);
      var b := JoinAll(live, init, replies, skip);
      assert Acks(replies(node.id));
      AckedJoinSucceeds(b.live, b.live, [b.live], node, replies(node.id));
    }
  }

  // ---- What two nodes with one address do ----

  /** Whatever the leader answers, a node whose join reported success is there at the end. */
  ghost predicate JoinedAlwaysStay(live: seq<Server>, order: seq<Server>) {
    forall replies, skip :: JoinAll(live, order, replies, skip).joined <= ToSet(JoinAll(live, order, replies, skip).live)
  }

  function Willing(): JoinReplies {
    JoinReplies(true, _ => Committed, Committed)
  }

  function AllWilling(): NodeId -> JoinReplies {
    _ => Willing()
  }

  lemma WillingAcks()
    ensures AlwaysAcks(AllWilling())
  {
    assert Acks(Willing());
  }

  /** From any configuration, and whatever fails, a node that joined successfully stays exactly
      when no two of the nodes conflict. */
  lemma JoinedStayExactly(live: seq<Server>, order: seq<Server>)
    requires Unique(live) && NoRepeats(order)
    ensures JoinedAlwaysStay(live, order) <==> NoConflicts(ToSet(order))
  {
    if NoConflicts(ToSet(order)) {
      forall replies, skip
        ensures JoinAll(live, order, replies, skip).joined <= ToSet(JoinAll(live, order, replies, skip).live)
      {
        PartialFailureIsSafe(live, order, replies, skip);
      }
    } else {
      var b := JoinAll(live, order, AllWilling(), true);
      WillingAcks();
      EveryoneJoins(live, order, AllWilling(), true);
      PartialFailureIsSafe(live, order, AllWilling(), true);
      assert b.live in b.trail;
      if b.joined <= ToSet(b.live) {
        var x, y :| x in ToSet(order) && y in ToSet(order) && x != y && Conflicts(x, y);
        assert x in ToSet(b.live) && y in ToSet(b.live);
        SameIdSameServer(b.live, x, y);
      }
    }
  }

  /** Two nodes whose addresses do not resolve: each join throws the other node out, although
      both report success, and the order decides who is left. */
  lemma UnresolvedNodesEvict(replies: NodeId -> JoinReplies, skip: bool)
    requires AlwaysAcks(replies)
    ensures var x, y := Server("a", "<nil>"), Server("b", "<nil>");
            && JoinAll([], [x, y], replies, skip).joined == {x, y}
            && JoinAll([], [y, x], replies, skip).joined == {x, y}
            && ToSet(JoinAll([], [x, y], replies, skip).live) == {y}
            && ToSet(JoinAll([], [y, x], replies, skip).live) == {x}
  {
    var x, y := Server("a", "<nil>"), Server("b", "<nil>");
    LastEvicts(x, y, replies, skip);
    LastEvicts(y, x, replies, skip);
  }

  lemma LastEvicts(x: Server, y: Server, replies: NodeId -> JoinReplies, skip: bool)
    requires AlwaysAcks(replies) && x.id != y.id && x.addr == y.addr
    ensures JoinAll([], [x, y], replies, skip).joined == {x, y}
    ensures ToSet(JoinAll([], [x, y], replies, skip).live) == {y}
  {
    EveryoneJoins([], [x, y], replies, skip);
    assert ToSet([x, y]) == {x, y};
    SuccessSettles([], [x, y], replies, skip);
    assert [x, y][..1] == [x];
    assert Settle(ToSet([]), [x]) == JoinTarget(ToSet([]), x);
    assert Settle(ToSet([]), [x, y]) == JoinTarget(JoinTarget(ToSet([]), x), y);
  }

  // ---- Exactly when the order does not matter ----

  /** Every join of the series reported success. */
  ghost predicate AllJoined(b: Booted, nodes: set<Server>) {
    !b.aborted && b.joined == nodes
  }

  /** Any two series of successful joins over all nodes end in the same set of servers. */
  ghost predicate OrderNeverMatters(live: seq<Server>, nodes: set<Server>) {
    forall p, q, rp, rq, skip ::
      IsOrder(p, nodes) && IsOrder(q, nodes)
      && AllJoined(JoinAll(live, p, rp, skip), nodes) && AllJoined(JoinAll(live, q, rq, skip), nodes) ==>
        ToSet(JoinAll(live, p, rp, skip).live) == ToSet(JoinAll(live, q, rq, skip).live)
  }

  lemma {:induction false} SomeOrder(nodes: set<Server>) returns (order: seq<Server>)
    ensures IsOrder(order, nodes)
  {
    if nodes == {} {
      order := [];
    } else {
      var n :| n in nodes;
      var init := SomeOrder(nodes - {n});
      order := init + [n];
      assert ToSet(order) == ToSet(init) + {n};
    }
  }

  lemma OrderEndingIn(nodes: set<Server>, n: Server) returns (order: seq<Server>)
    requires n in nodes
    ensures IsOrder(order, nodes) && order[|order| - 1] == n
  {
    var init := SomeOrder(nodes - {n});
    order := init + [n];
    assert ToSet(order) == ToSet(init) + {n};
  }

  /** Some order in which everyone joins leaves node `n` and throws out whatever conflicts with it. */
  lemma LastStays(live: seq<Server>, nodes: set<Server>, n: Server) returns (order: seq<Server>)
    requires Unique(live) && n in nodes
    ensures IsOrder(order, nodes)
    ensures var b := JoinAll(live, order, AllWilling(), true);
            && AllJoined(b, nodes)
            && n in ToSet(b.live)
            && forall s <- ToSet(b.live) :: Conflicts(s, n) ==> s == n
  {
    order := OrderEndingIn(nodes, n);
    OrderIsDistinct(order, nodes);
    WillingAcks();
    EveryoneJoins(live, order, AllWilling(), true);
    forall m | m in order ensures m in JoinAll(live, order, AllWilling(), true).joined {
      assert m in ToSet(order);
    }
    SuccessSettles(live, order, AllWilling(), true);
  }

  /** Nodes come from a map, so their ids differ. From any configuration, the order in which
      they join never matters exactly when their addresses differ as well. */
  lemma ConfluentExactly(live: seq<Server>, nodes: set<Server>)
    requires Unique(live) && DistinctIds(nodes)
    ensures OrderNeverMatters(live, nodes) <==> DistinctAddrs(nodes)
  {
    if DistinctAddrs(nodes) {
      forall p, q, rp, rq, skip |
        IsOrder(p, nodes) && IsOrder(q, nodes)
        && AllJoined(JoinAll(live, p, rp, skip), nodes) && AllJoined(JoinAll(live, q, rq, skip), nodes)
        ensures ToSet(JoinAll(live, p, rp, skip).live) == ToSet(JoinAll(live, q, rq, skip).live)
      {
        RejoinIsConfluent(live, nodes, p, rp, skip);
        RejoinIsConfluent(live, nodes, q, rq, skip);
      }
    } else {
      var x, y :| x in nodes && y in nodes && x != y && x.addr == y.addr;
      var p := LastStays(live, nodes, x);
      var q := LastStays(live, nodes, y);
      assert x in ToSet(JoinAll(live, p, AllWilling(), true).live);
      assert x !in ToSet(JoinAll(live, q, AllWilling(), true).live);
    }
  }

  // ---- The service object ----

  datatype InitError = AbnormalNodesCount | HostnameFailed | MissingLocalId

  function Named(id: NodeId, hostname: NodeId): NodeId {
    if id == "" then hostname else id
  }

  function ServersOf(order: seq<NodeId>, resolve: NodeId -> string, hostname: NodeId): seq<Server> {
    seq(|order|, i requires 0 <= i < |order| => Server(Named(order[i], hostname), resolve(order[i])))
  }

  ghost predicate IsKeyOrder(order: seq<NodeId>, keys: set<NodeId>) {
    (set k | k in order) == keys && forall i, j :: 0 <= i < j < |order| ==> order[i] != order[j]
  }

  /** The node map after these entries: a later entry under the same name replaces an earlier one. */
  function NodesOf(order: seq<NodeId>, resolve: NodeId -> string, hostname: NodeId): map<NodeId, string> {
    if order == [] then map[]
    else
      var key := order[|order| - 1];
      NodesOf(order[..|order| - 1], resolve, hostname)[Named(key, hostname) := resolve(key)]
  }

  /** `resolve` in the methods is what an address resolves to: a failed look-up leaves a nil
      address, which prints as "<nil>". `initial` is the list of servers to bootstrap with, `live`
      the configuration of the running cluster, whose changes `trail` follows. */
  class RaftService {
    var localId: NodeId
    var nodes: map<NodeId, string>
    var initial: seq<Server>
    var live: seq<Server>
    ghost var trail: seq<seq<Server>>

    constructor ()
      ensures localId == "" && nodes == map[] && initial == [] && live == [] && trail == []
    {
      localId, nodes, initial, live, trail := "", map[], [], [], [];
    }

    /** The node-list loop, over the configured nodes in any order; the node without a name is this host. */
    method Init(configured: map<NodeId, string>, resolve: NodeId -> string, hostname: Option<NodeId>)
      returns (err: Option<InitError>)
      requires localId == "" && nodes == map[]
      modifies this`localId, this`nodes, this`initial
      ensures err == (if configured == map[] then Some(AbnormalNodesCount)
                      else if "" in configured && hostname == None then Some(HostnameFailed)
                      else if "" !in configured || hostname.value == "" then Some(MissingLocalId)
                      else None)
      ensures err == None ==>
                && localId == hostname.value
                && exists order :: IsKeyOrder(order, configured.Keys)
                                   && initial == ServersOf(order, resolve, localId)
                                   && nodes == NodesOf(order, resolve, localId)
    {
      if configured == map[] {
        return Some(AbnormalNodesCount);
      }
      initial := [];
      var left := configured.Keys;
      ghost var order := [];
      ghost var name := if hostname.Some? then hostname.value else "";
      while left != {}
        invariant left <= configured.Keys
        invariant Listing(order, configured.Keys - left, resolve, name, localId, initial, nodes)
        invariant "" in configured.Keys - left ==> hostname.Some?
        decreases left
      {
        var key :| key in left;
        var id, addr := key, resolve(key);
        if id == "" {
          if hostname == None {
            return Some(HostnameFailed);
          }
          id := hostname.value;
        }
        ListOne(order, configured.Keys - left, key, resolve, name, localId, initial, nodes);
        if key == "" {
          localId := id;
        }
        nodes := nodes[id := addr];
        initial := initial + [Server(id, addr)];
        assert configured.Keys - (left - {key}) == (configured.Keys - left) + {key};
        left := left - {key};
        order := order + [key];
      }
      assert configured.Keys - left == configured.Keys;
      return if localId == "" then Some(MissingLocalId) else None;
    }

    method RemoveServer(id: NodeId, reply: Reply) returns (ok: bool)
      modifies this`live, this`trail
      ensures live == if reply.Applied() then Without(old(live), id) else old(live)
      ensures trail == if reply.Applied() then old(trail) + [live] else old(trail)
      ensures ok == reply.Acked()
    {
      if reply.Applied() {
        live := Without(live, id);
        trail := trail + [live];
      }
      return reply.Acked();
    }

    method AddVoter(node: Server, reply: Reply) returns (ok: bool)
      modifies this`live, this`trail
      ensures live == if reply.Applied() then WithVoter(old(live), node) else old(live)
      ensures trail == if reply.Applied() then old(trail) + [live] else old(trail)
      ensures ok == reply.Acked()
    {
      if reply.Applied() {
        live := WithVoter(live, node);
        trail := trail + [live];
      }
      return reply.Acked();
    }

    method Join(node: Server, replies: JoinReplies) returns (ok: bool)
      modifies this`live, this`trail
      ensures var j := RaftJoin.Join(old(live), node, replies);
              live == j.live && ok == j.ok && trail == old(trail) + j.trail
    {
      hide RaftJoin.Join, Walk, Walking, Without, WithVoter;
      WalkFirst(live, node, replies);
      trail := trail + [live];
      if !replies.configuration {
        return false;
      }
      var copied := live;
      ghost var base, gone := old(trail), [live];
      ghost var end := RaftJoin.Join(live, node, replies);
      for i := 0 to |copied|
        invariant trail == base + gone
        invariant Walking(end, copied, i, live, gone, node, replies)
      {
        WalkOne(end, copied, i, live, gone, node, replies);
        var srv := copied[i];
        if srv.id == node.id || srv.addr == node.addr {
          if srv.id == node.id && srv.addr == node.addr {
            assert end == Joined(live, gone, true);
            return true;
          }
          var reply := replies.remove(srv.id);
          var removed := RemoveServer(srv.id, reply);
          gone := if reply.Applied() then gone + [live] else gone;
          assert trail == base + gone;
          if !removed {
            assert end == Joined(live, gone, false);
            return false;
          }
        }
      }
      WalkLast(end, copied, live, gone, node, replies);
      ok := AddVoter(node, replies.add);
      gone := if replies.add.Applied() then gone + [live] else gone;
      assert trail == base + gone;
      assert end == Joined(live, gone, ok);
    }

    /** The re-join loop. Go walks the map in an order of its own. */
    method Rejoin(replies: NodeId -> JoinReplies, skipJoinErrors: bool) returns (ok: bool)
      modifies this`live, this`trail
      ensures exists order :: Rejoined(order, nodes, old(live), replies, skipJoinErrors, live, ok)
                              && trail == old(trail) + JoinAll(old(live), order, replies, skipJoinErrors).trail
      ensures AlwaysAcks(replies) ==> ok
      ensures Unique(old(live)) && DistinctAddrs(Visited(nodes, {})) && ok && (AlwaysAcks(replies) || !skipJoinErrors) ==>
                ToSet(live) == Target(ToSet(old(live)), Visited(nodes, {}))
    {
      ghost var before, base := live, trail;
      ghost var order := [];
      trail := trail + [live];
      var left := nodes.Keys;
      while left != {}
        invariant Rejoining(order, nodes, left, before, base, replies, skipJoinErrors, live, trail)
        decreases left
      {
        var id :| id in left;
        ghost var s, t := live, trail;
        var joined := Join(Server(id, nodes[id]), replies(id));
        RejoinOne(order, nodes, left, id, before, base, replies, skipJoinErrors, s, t);
        if AlwaysAcks(replies) {
          EveryoneJoins(before, order + [Server(id, nodes[id])], replies, skipJoinErrors);
        }
        left := left - {id};
        order := order + [Server(id, nodes[id])];
        if !joined && !skipJoinErrors {
          return false;
        }
      }
      OrderIsDistinct(order, Visited(nodes, {}));
      RejoinEnds(order, nodes, before, replies, skipJoinErrors, live);
      return true;
    }
  }

  /** The loop is part way: `left` are the nodes it has yet to join. */
  ghost predicate Rejoining(order: seq<Server>, nodes: map<NodeId, string>, left: set<NodeId>, before: seq<Server>,
                            base: seq<seq<Server>>, replies: NodeId -> JoinReplies, skip: bool,
                            servers: seq<Server>, trail: seq<seq<Server>>) {
    var b := JoinAll(before, order, replies, skip);
    && left <= nodes.Keys
    && IsOrder(order, Visited(nodes, left))
    && servers == b.live && trail == base + b.trail && !b.aborted
  }

  lemma RejoinOne(order: seq<Server>, nodes: map<NodeId, string>, left: set<NodeId>, id: NodeId, before: seq<Server>,
                  base: seq<seq<Server>>, replies: NodeId -> JoinReplies, skip: bool,
                  servers: seq<Server>, trail: seq<seq<Server>>)
    requires id in left && Rejoining(order, nodes, left, before, base, replies, skip, servers, trail)
    ensures var node := Server(id, nodes[id]);
            var j := RaftJoin.Join(servers, node, replies(id));
            if !j.ok && !skip then
              && Rejoined(order + [node], nodes, before, replies, skip, j.live, false)
              && trail + j.trail == base + JoinAll(before, order + [node], replies, skip).trail
            else Rejoining(order + [node], nodes, left - {id}, before, base, replies, skip, j.live, trail + j.trail)
  {
    JoinAllSnoc(before, order, Server(id, nodes[id]), replies, skip);
    VisitOne(nodes, left, id, order);
  }

  function Visited(nodes: map<NodeId, string>, left: set<NodeId>): set<Server> {
    set id | id in nodes && id !in left :: Server(id, nodes[id])
  }

  /** The loop joined nodes in this order: all of them if it came to its end. */
  ghost predicate Rejoined(order: seq<Server>, nodes: map<NodeId, string>, before: seq<Server>,
                           replies: NodeId -> JoinReplies, skip: bool, after: seq<Server>, ok: bool) {
    var b := JoinAll(before, order, replies, skip);
    && NoRepeats(order)
    && ToSet(order) <= Visited(nodes, {})
    && (ok ==> IsOrder(order, Visited(nodes, {})))
    && after == b.live && ok == !b.aborted
  }

  /** A loop that came to its end with all joins acknowledged, or with none of them allowed to
      fail, leaves the nodes and the old servers that conflict with none of them. */
  lemma RejoinEnds(order: seq<Server>, nodes: map<NodeId, string>, before: seq<Server>,
                   replies: NodeId -> JoinReplies, skip: bool, after: seq<Server>)
    requires Rejoined(order, nodes, before, replies, skip, after, true)
    ensures Unique(before) && (AlwaysAcks(replies) || !skip) && DistinctAddrs(Visited(nodes, {})) ==>
              ToSet(after) == Target(ToSet(before), Visited(nodes, {}))
  {
    NodesHaveDistinctIds(nodes);
    if Unique(before) && (AlwaysAcks(replies) || !skip) && DistinctAddrs(Visited(nodes, {})) {
      if skip {
        EveryoneJoins(before, order, replies, skip);
      } else {
        NoneSkipped(before, order, replies);
      }
      RejoinIsConfluent(before, Visited(nodes, {}), order, replies, skip);
    }
  }

  lemma {:induction false} NoneSkipped(live: seq<Server>, order: seq<Server>, replies: NodeId -> JoinReplies)
    requires !JoinAll(live, order, replies, false).aborted
    ensures JoinAll(live, order, replies, false).joined == ToSet(order)
  {
    if order != [] {
      var init, node := order[..|order| - 1], order[|order| - 1];
      assert order == init + [node];
      assert ToSet(order) == ToSet(init) + {node};
      NoneSkipped(live, init, replies);
    }
  }

  /** Any two runs of the loop that joined everyone leave the same servers. */
  ghost predicate RejoinIsDetermined(nodes: map<NodeId, string>, before: seq<Server>) {
    forall p, q, rp, rq, skip, x, y ::
      Rejoined(p, nodes, before, rp, skip, x, true) && Rejoined(q, nodes, before, rq, skip, y, true)
      && JoinAll(before, p, rp, skip).joined == Visited(nodes, {}) == JoinAll(before, q, rq, skip).joined ==>
        ToSet(x) == ToSet(y)
  }

  /** What the loop leaves of a map of nodes is determined exactly when their addresses differ. */
  lemma RejoinIsDeterminedExactly(nodes: map<NodeId, string>, before: seq<Server>)
    requires Unique(before)
    ensures RejoinIsDetermined(nodes, before) <==> DistinctAddrs(Visited(nodes, {}))
  {
    var all := Visited(nodes, {});
    NodesHaveDistinctIds(nodes);
    ConfluentExactly(before, all);
    if RejoinIsDetermined(nodes, before) {
      forall p, q, rp, rq, skip |
        IsOrder(p, all) && IsOrder(q, all)
        && AllJoined(JoinAll(before, p, rp, skip), all) && AllJoined(JoinAll(before, q, rq, skip), all)
        ensures ToSet(JoinAll(before, p, rp, skip).live) == ToSet(JoinAll(before, q, rq, skip).live)
      {
        OrderIsDistinct(p, all);
        OrderIsDistinct(q, all);
        assert Rejoined(p, nodes, before, rp, skip, JoinAll(before, p, rp, skip).live, true);
        assert Rejoined(q, nodes, before, rq, skip, JoinAll(before, q, rq, skip).live, true);
      }
    }
  }

  lemma JoinAllSnoc(live: seq<Server>, order: seq<Server>, node: Server, replies: NodeId -> JoinReplies, skip: bool)
    requires !JoinAll(live, order, replies, skip).aborted
    ensures var b, b' := JoinAll(live, order, replies, skip), JoinAll(live, order + [node], replies, skip);
            var j := RaftJoin.Join(b.live, node, replies(node.id));
            b'.live == j.live && b'.trail == b.trail + j.trail && b'.aborted == (!j.ok && !skip)
  {
    assert (order + [node])[..|order|] == order;
  }

  lemma VisitOne(nodes: map<NodeId, string>, left: set<NodeId>, id: NodeId, order: seq<Server>)
    requires left <= nodes.Keys && id in left && IsOrder(order, Visited(nodes, left))
    ensures IsOrder(order + [Server(id, nodes[id])], Visited(nodes, left - {id}))
    ensures NoRepeats(order + [Server(id, nodes[id])])
    ensures ToSet(order + [Server(id, nodes[id])]) <= Visited(nodes, {})
  {
    var node := Server(id, nodes[id]);
    assert ToSet(order + [node]) == ToSet(order) + {node};
    assert Visited(nodes, left - {id}) == Visited(nodes, left) + {node};
    assert node !in Visited(nodes, left);
    OrderIsDistinct(order + [node], Visited(nodes, left - {id}));
  }

  /** The configured nodes never share an id, whatever their addresses. */
  lemma NodesHaveDistinctIds(nodes: map<NodeId, string>)
    ensures DistinctIds(Visited(nodes, {}))
  {
  }

  // ---- What Init leaves to the cluster ----

  /** The node-list loop is part way: it has been through the entries `visited`. */
  ghost predicate Listing(order: seq<NodeId>, visited: set<NodeId>, resolve: NodeId -> string, name: NodeId,
                          localId: NodeId, initial: seq<Server>, nodes: map<NodeId, string>) {
    && IsKeyOrder(order, visited)
    && localId == (if "" in visited then name else "")
    && initial == ServersOf(order, resolve, name)
    && nodes == NodesOf(order, resolve, name)
  }

  lemma ListOne(order: seq<NodeId>, visited: set<NodeId>, key: NodeId, resolve: NodeId -> string, name: NodeId,
                localId: NodeId, initial: seq<Server>, nodes: map<NodeId, string>)
    requires Listing(order, visited, resolve, name, localId, initial, nodes) && key !in visited
    ensures var id, addr := Named(key, name), resolve(key);
            Listing(order + [key], visited + {key}, resolve, name, if key == "" then name else localId,
                    initial + [Server(id, addr)], nodes[id := addr])
  {
    var longer := order + [key];
    assert longer[..|longer| - 1] == order;
    assert (set k | k in longer) == (set k | k in order) + {key};
    assert ServersOf(longer, resolve, name) == initial + [Server(Named(key, name), resolve(key))];
  }

  /** The last entry under a name decides its address. */
  lemma {:induction false} LastEntryDecides(order: seq<NodeId>, resolve: NodeId -> string, hostname: NodeId, i: nat)
    requires i < |order|
    requires forall k :: i < k < |order| ==> Named(order[k], hostname) != Named(order[i], hostname)
    ensures Named(order[i], hostname) in NodesOf(order, resolve, hostname)
    ensures NodesOf(order, resolve, hostname)[Named(order[i], hostname)] == resolve(order[i])
  {
    if i < |order| - 1 {
      LastEntryDecides(order[..|order| - 1], resolve, hostname, i);
    }
  }

  lemma {:induction false} OnlyEntries(order: seq<NodeId>, resolve: NodeId -> string, hostname: NodeId, id: NodeId)
    requires id in NodesOf(order, resolve, hostname)
    ensures exists key <- order :: Named(key, hostname) == id
  {
    var last := order[|order| - 1];
    if Named(last, hostname) != id {
      OnlyEntries(order[..|order| - 1], resolve, hostname, id);
    }
    assert last in order;
  }

  lemma NamesAreAsConfigured(order: seq<NodeId>, keys: set<NodeId>, resolve: NodeId -> string, hostname: NodeId)
    requires IsKeyOrder(order, keys)
    ensures NodesOf(order, resolve, hostname).Keys == set key | key in keys :: Named(key, hostname)
  {
    forall id | id in NodesOf(order, resolve, hostname) ensures id in (set key | key in keys :: Named(key, hostname)) {
      OnlyEntries(order, resolve, hostname, id);
    }
    forall key | key in keys ensures Named(key, hostname) in NodesOf(order, resolve, hostname) {
      assert key in order;
      EntryIsThere(order, resolve, hostname, key);
    }
  }

  /** An entry whose name no other entry has. */
  lemma LoneEntryDecides(order: seq<NodeId>, keys: set<NodeId>, resolve: NodeId -> string, hostname: NodeId, key: NodeId)
    requires IsKeyOrder(order, keys) && key in keys
    requires forall other <- keys :: other != key ==> Named(other, hostname) != Named(key, hostname)
    ensures Named(key, hostname) in NodesOf(order, resolve, hostname)
    ensures NodesOf(order, resolve, hostname)[Named(key, hostname)] == resolve(key)
  {
    assert key in order;
    var i :| 0 <= i < |order| && order[i] == key;
    forall k | i < k < |order| ensures Named(order[k], hostname) != Named(order[i], hostname) {
      assert order[k] in order;
    }
    LastEntryDecides(order, resolve, hostname, i);
  }

  /** The node map has the nodes as configured, this host under its own name. */
  lemma NodesAreAsConfigured(order: seq<NodeId>, keys: set<NodeId>, resolve: NodeId -> string, hostname: NodeId)
    requires IsKeyOrder(order, keys) && hostname != ""
    ensures var nodes := NodesOf(order, resolve, hostname);
            && nodes.Keys == (set key | key in keys :: Named(key, hostname))
            && (forall key <- keys :: key != "" && key != hostname ==> nodes[key] == resolve(key))
            && (hostname !in keys && "" in keys ==> nodes[hostname] == resolve(""))
            && (hostname in keys && "" !in keys ==> nodes[hostname] == resolve(hostname))
  {
    hide NodesOf, IsKeyOrder;
    NamesAreAsConfigured(order, keys, resolve, hostname);
    forall key | key in keys && (Named(key, hostname) == hostname ==> hostname !in keys || "" !in keys)
      ensures Named(key, hostname) in NodesOf(order, resolve, hostname)
      ensures NodesOf(order, resolve, hostname)[Named(key, hostname)] == resolve(key)
    {
      LoneEntryDecides(order, keys, resolve, hostname, key);
    }
    assert Named("", hostname) == hostname == Named(hostname, hostname);
    assert forall key :: key != "" ==> Named(key, hostname) == key;
  }

  /** Listed under its own name as well, this host has the address of whichever of its two entries
      came last, so the order of the walk decides. */
  lemma LocalAddressIsTheLast(order: seq<NodeId>, keys: set<NodeId>, resolve: NodeId -> string, hostname: NodeId, i: nat, k: nat)
    requires IsKeyOrder(order, keys) && hostname != ""
    requires i < |order| && k < |order| && order[i] == "" && order[k] == hostname
    ensures hostname in NodesOf(order, resolve, hostname)
    ensures NodesOf(order, resolve, hostname)[hostname] == resolve(if i < k then hostname else "")
  {
    LastEntryDecides(order, resolve, hostname, if i < k then k else i);
  }

  lemma {:induction false} EntryIsThere(order: seq<NodeId>, resolve: NodeId -> string, hostname: NodeId, key: NodeId)
    requires key in order
    ensures Named(key, hostname) in NodesOf(order, resolve, hostname)
  {
    var last := order[|order| - 1];
    assert order == order[..|order| - 1] + [last];
    if key != last {
      EntryIsThere(order[..|order| - 1], resolve, hostname, key);
    }
  }

  /** The initial configuration names each server once exactly when this host is not also listed
      under its own name. */
  lemma InitialIdsAreUnique(order: seq<NodeId>, keys: set<NodeId>, resolve: NodeId -> string, hostname: NodeId)
    requires IsKeyOrder(order, keys) && "" in keys && hostname != ""
    ensures DistinctServerIds(ServersOf(order, resolve, hostname)) <==> hostname !in keys
  {
    var servers := ServersOf(order, resolve, hostname);
    assert "" in order;
    var i :| 0 <= i < |order| && order[i] == "";
    if hostname in keys {
      assert hostname in order;
      var k :| 0 <= k < |order| && order[k] == hostname;
      assert servers[i].id == servers[k].id;
    } else {
      forall a, b | 0 <= a < b < |servers| ensures servers[a].id != servers[b].id {
        assert order[a] in keys && order[b] in keys;
      }
    }
  }

  /** Unless this host is also listed under its own name, the servers to bootstrap with are exactly the
      nodes to re-join, with the same addresses. */
  lemma InitialServersAreTheNodes(order: seq<NodeId>, keys: set<NodeId>, resolve: NodeId -> string, hostname: NodeId)
    requires IsKeyOrder(order, keys) && "" in keys && hostname != "" && hostname !in keys
    ensures ToSet(ServersOf(order, resolve, hostname)) == Visited(NodesOf(order, resolve, hostname), {})
  {
    hide NodesOf;
    var servers, nodes := ServersOf(order, resolve, hostname), NodesOf(order, resolve, hostname);
    NodesAreAsConfigured(order, keys, resolve, hostname);
    forall s | s in servers ensures s in Visited(nodes, {}) {
      var i :| 0 <= i < |servers| && servers[i] == s;
      assert order[i] in order;
    }
    forall s | s in Visited(nodes, {}) ensures s in servers {
      var key :| key in keys && Named(key, hostname) == s.id;
      assert key in order;
      var i :| 0 <= i < |order| && order[i] == key;
      assert servers[i] == s;
    }
  }

  ghost predicate DistinctServerIds(servers: seq<Server>) {
    forall i, k :: 0 <= i < k < |servers| ==> servers[i].id != servers[k].id
  }
}
