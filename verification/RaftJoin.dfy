// Raft membership: joining one node to a cluster, and joining a set of nodes one after
// the other in whatever order.
module RaftJoin {
  import opened Common

  type NodeId = string

  datatype Server = Server(id: NodeId, addr: string)

  predicate Conflicts(a: Server, b: Server) {
    a.id == b.id || a.addr == b.addr
  }

  ghost predicate Unique(servers: seq<Server>) {
    forall i, k :: 0 <= i < k < |servers| ==> !Conflicts(servers[i], servers[k])
  }

  function ToSet(servers: seq<Server>): set<Server> {
    set s | s in servers
  }

  // ---- What the leader does to the live configuration ----

  function Without(servers: seq<Server>, id: NodeId): seq<Server> {
    if servers == [] then []
    else (if servers[0].id == id then [] else [servers[0]]) + Without(servers[1..], id)
  }

  /** A server with the same id gets the new address, otherwise the voter is added. */
  function WithVoter(servers: seq<Server>, node: Server): seq<Server> {
    if servers == [] then [node]
    else if servers[0].id == node.id then [node] + servers[1..]
    else [servers[0]] + WithVoter(servers[1..], node)
  }

  // ---- One join ----

  /** The leader's answers to the calls of one join. */
  datatype JoinReplies = JoinReplies(configuration: bool, remove: NodeId -> Reply, add: Reply)

  /** `trail` are the configurations gone through, the first of them the one before. */
  datatype Joined = Joined(live: seq<Server>, trail: seq<seq<Server>>, ok: bool)

  /** The walk over a copy of the configuration, while the live one changes. */
  function Walk(copied: seq<Server>, live: seq<Server>, trail: seq<seq<Server>>, node: Server, replies: JoinReplies): Joined
    decreases |copied|
  {
    if copied == [] then
      if replies.add.Applied() then
        var added := WithVoter(live, node);
        Joined(added, trail + [added], replies.add.Acked())
      else Joined(live, trail, false)
    else if !Conflicts(copied[0], node) then Walk(copied[1..], live, trail, node, replies)
    else if copied[0] == node then Joined(live, trail, true)
    else
      var reply := replies.remove(copied[0].id);
      var live' := if reply.Applied() then Without(live, copied[0].id) else live;
      var trail' := if reply.Applied() then trail + [live'] else trail;
      if reply.Acked() then Walk(copied[1..], live', trail', node, replies) else Joined(live', trail', false)
  }

  function Join(live: seq<Server>, node: Server, replies: JoinReplies): Joined {
    if replies.configuration then Walk(live, live, [live], node, replies) else Joined(live, [live], false)
  }

  // ---- The walk as a loop ----

  /** The walk has come to the server at `i`, and will end in `end`. */
  ghost predicate Walking(end: Joined, copied: seq<Server>, i: nat, live: seq<Server>, trail: seq<seq<Server>>,
                          node: Server, replies: JoinReplies) {
    i <= |copied| && end == Walk(copied[i..], live, trail, node, replies)
  }

  lemma WalkFirst(live: seq<Server>, node: Server, replies: JoinReplies)
    ensures if replies.configuration then Walking(Join(live, node, replies), live, 0, live, [live], node, replies)
            else Join(live, node, replies) == Joined(live, [live], false)
  {
    assert live[0..] == live;
  }

  lemma WalkOne(end: Joined, copied: seq<Server>, i: nat, live: seq<Server>, trail: seq<seq<Server>>, node: Server, replies: JoinReplies)
    requires i < |copied| && Walking(end, copied, i, live, trail, node, replies)
    ensures var srv := copied[i];
            if !Conflicts(srv, node) then Walking(end, copied, i + 1, live, trail, node, replies)
            else if srv == node then end == Joined(live, trail, true)
            else
              var reply := replies.remove(srv.id);
              var live' := if reply.Applied() then Without(live, srv.id) else live;
              var trail' := if reply.Applied() then trail + [live'] else trail;
              if reply.Acked() then Walking(end, copied, i + 1, live', trail', node, replies) else end == Joined(live', trail', false)
  {
    assert copied[i..][0] == copied[i] && copied[i..][1..] == copied[i + 1..];
  }

  lemma WalkLast(end: Joined, copied: seq<Server>, live: seq<Server>, trail: seq<seq<Server>>, node: Server, replies: JoinReplies)
    requires Walking(end, copied, |copied|, live, trail, node, replies)
    ensures end == if replies.add.Applied() then Joined(WithVoter(live, node), trail + [WithVoter(live, node)], replies.add.Acked())
                   else Joined(live, trail, false)
  {
  }

  // ---- Laws of the live configuration ----

  lemma {:induction false} WithoutSet(servers: seq<Server>, id: NodeId)
    ensures ToSet(Without(servers, id)) == set s | s in servers && s.id != id
    ensures Unique(servers) ==> Unique(Without(servers, id))
  {
    if servers != [] {
      var head, tail := servers[0], servers[1..];
      WithoutSet(tail, id);
      var rest := Without(tail, id);
      assert servers == [head] + tail;
      assert Unique(servers) ==> Unique(tail);
      forall s | s in rest ensures s in tail {
        assert s in ToSet(rest);
      }
      assert ToSet(Without(servers, id)) == (if head.id == id then {} else {head}) + ToSet(rest);
      if Unique(servers) && head.id != id {
        ConsUnique(head, rest, tail);
      }
    }
  }

  lemma ConsUnique(head: Server, rest: seq<Server>, tail: seq<Server>)
    requires Unique([head] + tail) && Unique(rest) && forall s <- rest :: s in tail
    ensures Unique([head] + rest)
  {
    forall k | 0 <= k < |rest| ensures !Conflicts(head, rest[k]) {
      assert rest[k] in tail;
      var i :| 0 <= i < |tail| && tail[i] == rest[k];
      assert !Conflicts(([head] + tail)[0], ([head] + tail)[i + 1]);
    }
  }

  lemma {:induction false} WithVoterFresh(servers: seq<Server>, node: Server)
    requires forall s <- servers :: s.id != node.id
    ensures WithVoter(servers, node) == servers + [node]
  {
    if servers != [] {
      WithVoterFresh(servers[1..], node);
    }
  }

  lemma SnocUnique(servers: seq<Server>, node: Server)
    requires Unique(servers) && forall s <- servers :: !Conflicts(s, node)
    ensures Unique(servers + [node])
  {
  }

  // ---- Laws of one join ----

  /** Between a configuration and one with a node joined: ids and addresses are unique, servers
      that do not conflict with the node are there, and nothing else than old servers and the node. */
  ghost predicate Between(before: seq<Server>, node: Server, x: seq<Server>) {
    && Unique(x)
    && (forall s <- before :: !Conflicts(s, node) ==> s in x)
    && (forall s <- x :: s in before || s == node)
  }

  /** Part way through the walk: the conflicting servers still to be visited are the only ones left. */
  ghost predicate Halfway(before: seq<Server>, node: Server, copied: seq<Server>, live: seq<Server>) {
    && Between(before, node, live)
    && (forall s <- live :: s in before)
    && (forall s <- live :: Conflicts(s, node) ==> s in copied)
    && (forall s <- copied :: s in before)
    && (node in before ==> node in copied && node in live && forall s <- before :: Conflicts(s, node) ==> s == node)
  }

  ghost predicate GoodJoin(before: seq<Server>, node: Server, j: Joined) {
    && j.trail != [] && j.trail[|j.trail| - 1] == j.live
    && (forall x <- j.trail :: Between(before, node, x))
    && (j.ok ==> ToSet(j.live) == JoinTarget(ToSet(before), node))
  }

  /** What a join is for: the node is a member, and nothing conflicts with it. */
  function JoinTarget(before: set<Server>, node: Server): set<Server> {
    (set s | s in before && !Conflicts(s, node)) + {node}
  }

  lemma WalkEnds(before: seq<Server>, live: seq<Server>, trail: seq<seq<Server>>, node: Server, replies: JoinReplies)
    requires Halfway(before, node, [], live)
    requires trail != [] && trail[|trail| - 1] == live && forall x <- trail :: Between(before, node, x)
    ensures GoodJoin(before, node, Walk([], live, trail, node, replies))
  {
    if replies.add.Applied() {
      assert forall s <- live :: !Conflicts(s, node);
      WithVoterFresh(live, node);
      SnocUnique(live, node);
      assert ToSet(live + [node]) == ToSet(live) + {node};
      assert ToSet(live) == set s | s in ToSet(before) && !Conflicts(s, node);
    }
  }

  lemma MemberEnds(before: seq<Server>, copied: seq<Server>, live: seq<Server>, node: Server)
    requires Halfway(before, node, copied, live) && node in copied
    ensures ToSet(live) == JoinTarget(ToSet(before), node)
  {
  }

  lemma {:induction false} WalkIsGood(before: seq<Server>, copied: seq<Server>, live: seq<Server>, trail: seq<seq<Server>>, node: Server, replies: JoinReplies)
    requires Unique(before) && Halfway(before, node, copied, live)
    requires trail != [] && trail[|trail| - 1] == live && forall x <- trail :: Between(before, node, x)
    ensures GoodJoin(before, node, Walk(copied, live, trail, node, replies))
    decreases |copied|
  {
    if copied == [] {
      WalkEnds(before, live, trail, node, replies);
    } else {
      var srv, rest := copied[0], copied[1..];
      assert copied == [srv] + rest;
      if !Conflicts(srv, node) {
        WalkIsGood(before, rest, live, trail, node, replies);
      } else if srv == node {
        MemberEnds(before, copied, live, node);
      } else {
        var reply := replies.remove(srv.id);
        if reply.Applied() {
          RemovalIsHalfway(before, copied, live, node);
          var live' := Without(live, srv.id);
          if reply.Acked() {
            WalkIsGood(before, rest, live', trail + [live'], node, replies);
          }
        }
      }
    }
  }

  lemma RemovalIsHalfway(before: seq<Server>, copied: seq<Server>, live: seq<Server>, node: Server)
    requires copied != [] && Halfway(before, node, copied, live) && Unique(before)
    requires Conflicts(copied[0], node) && copied[0] != node
    ensures Halfway(before, node, copied[1..], Without(live, copied[0].id))
  {
    var srv, live' := copied[0], Without(live, copied[0].id);
    WithoutSet(live, srv.id);
    assert copied == [srv] + copied[1..];
    forall s ensures s in live' <==> s in live && s.id != srv.id {
      assert s in live' <==> s in ToSet(live');
    }
    forall s | s in before && s.id == srv.id ensures s == srv {
      SameIdSameServer(before, s, srv);
    }
  }

  lemma SameIdSameServer(servers: seq<Server>, a: Server, b: Server)
    requires Unique(servers) && a in servers && b in servers && Conflicts(a, b)
    ensures a == b
  {
    var i :| 0 <= i < |servers| && servers[i] == a;
    var k :| 0 <= k < |servers| && servers[k] == b;
  }

  /** Whatever the leader answers, every configuration a join goes through has unique ids and
      addresses and keeps the servers that do not conflict with the node; and a join that reports
      success has put the node in the place of exactly the servers that did. */
  lemma JoinIsGood(live: seq<Server>, node: Server, replies: JoinReplies)
    requires Unique(live)
    ensures GoodJoin(live, node, Join(live, node, replies))
  {
    if replies.configuration {
      forall s | node in live && s in live && Conflicts(s, node) ensures s == node {
        SameIdSameServer(live, s, node);
      }
      WalkIsGood(live, live, live, [live], node, replies);
    }
  }

  /** A leader that acknowledges everything makes every join succeed. */
  lemma {:induction false} AckedJoinSucceeds(copied: seq<Server>, live: seq<Server>, trail: seq<seq<Server>>, node: Server, replies: JoinReplies)
    requires replies.add.Acked() && forall id :: replies.remove(id).Acked()
    ensures Walk(copied, live, trail, node, replies).ok
    decreases |copied|
  {
    if copied != [] && !(Conflicts(copied[0], node) && copied[0] == node) {
      var live' := Without(live, copied[0].id);
      if Conflicts(copied[0], node) {
        assert replies.remove(copied[0].id).Acked();
        AckedJoinSucceeds(copied[1..], live', trail + [live'], node, replies);
      } else {
        AckedJoinSucceeds(copied[1..], live, trail, node, replies);
      }
    }
  }
}
