/** Send order matters: a legal run of three peers in which one AppendEntries is handled after a
    later one of the same term, and two peers deliver different commands at index 2.

    Leader 0 sends [a], then [a, b]; peer 1 handles the second request first, so 0 commits and
    delivers b.  The late first request then cuts b from peer 1's log, peer 1 wins term 2 without
    it, and commits and delivers c in its place.
 */
module RaftReorder {
  import opened RaftTypes
  import opened RaftCluster
  import opened RaftWitness

  const A := Cmd("a")
  const B := Cmd("b")
  const C := Cmd("c")

  const LOG1 := [DUMMY, Entry(1, A)]
  const LOG2 := [DUMMY, Entry(1, A), Entry(1, B)]
  const LOG3 := [DUMMY, Entry(1, A), Entry(2, C)]

  const EARLY := AppendArgs(1, 0, 0, 0, [Entry(1, A)], 0)
  const LATE := AppendArgs(1, 0, 0, 0, [Entry(1, A), Entry(1, B)], 0)
  const FIRST := AppendArgs(2, 1, 1, 1, [Entry(2, C)], 0)
  const SECOND := AppendArgs(2, 1, 0, 0, [Entry(1, A), Entry(2, C)], 0)

  // The peers as they appear along the run.
  function Leader0(log: seq<Entry>): Server { Peer(1, 0, log, 0, [0, 1, 1], [0, 0, 0], Leader) }

  function Follower1(log: seq<Entry>): Server { Peer(1, 0, log, 0, [], [], Follower) }

  function Leader1(log: seq<Entry>, next2: int, match2: int): Server {
    Peer(2, 1, log, 0, [2, 0, next2], [0, 0, match2], Leader)
  }

  function Follower2(log: seq<Entry>): Server { Peer(2, 1, log, 0, [], [], Follower) }

  function Exchanged(nodes: seq<Node>, to: nat, args: AppendArgs): seq<Node>
    requires to < |nodes| && args.leaderId < |nodes|
    requires nodes[to].raft.Valid() && nodes[to].raft.snapshotIndex <= args.prevLogIndex
    requires var s := nodes[args.leaderId].raft; |s.log| >= 1 && to < |s.nextIndex| == |s.matchIndex|
  {
    var (s, reply) := AnswerAppend(nodes[to].raft, args);
    var i := args.leaderId;
    nodes[to := nodes[to].(raft := s)][i := nodes[i].(raft := UseAppendReply(nodes[i].raft, to, args, reply))]
  }

  // A request is handled and its reply reaches the leader.
  lemma Exchange(run: seq<Action>, nodes: seq<Node>, sends: nat, m: Message) returns (run': seq<Action>)
    requires Reached(run, nodes, sends) && |nodes| == 3
    requires Sent(run, m) && m.AppendRequest? && m.append.leaderId < 3 && m.to < 3 && m.append.leaderId != m.to
    requires nodes[m.to].raft.Valid() && nodes[m.to].raft.snapshotIndex <= m.append.prevLogIndex
    requires var s := nodes[m.append.leaderId].raft;
             && |s.log| >= 1 && |s.nextIndex| == |s.matchIndex| == 3
             && s.role == Leader && s.currentTerm == m.append.term
    requires (m.to, m.append.term) in HandledIn(run) ==> HandledIn(run)[(m.to, m.append.term)] <= m.sendNo
    ensures Reached(run', Exchanged(nodes, m.to, m.append), sends)
    ensures HandledIn(run') == HandledIn(run)[(m.to, m.append.term) := m.sendNo]
    ensures OutOfOrder(run') == OutOfOrder(run)
    ensures forall x :: Sent(run, x) ==> Sent(run', x)
  {
    var (s, reply) := AnswerAppend(nodes[m.to].raft, m.append);
    var r1 := Handle(run, nodes, sends, m);
    var next := nodes[m.to := nodes[m.to].(raft := s)];
    run' := Use(r1, next, sends, AppendResponse(m.sendNo, m.to, m.append, reply));
  }

  lemma LateHandled()
    ensures AnswerAppend(Follower1(LOG0), LATE) == (Follower1(LOG2), AppendReply(1, true, 0, 0, 0))
    ensures Exchanged([Idle(Leader0(LOG2)), Idle(Follower1(LOG0)), Idle(Boot())], 1, LATE)
         == [Idle(Peer(1, 0, LOG2, 0, [0, 3, 1], [0, 2, 0], Leader)), Idle(Follower1(LOG2)), Idle(Boot())]
  {
    var s := Follower1(LOG0);
    assert LOG0[..1] + LATE.entries == LOG2;
    assert Merge(s, LATE) == LOG2;
    assert AnswerAppend(s, LATE) == (Follower1(LOG2), AppendReply(1, true, 0, 0, 0));
    assert [0, 1, 1][1 := 3] == [0, 3, 1] && [0, 0, 0][1 := 2] == [0, 2, 0];
    assert UseAppendReply(Leader0(LOG2), 1, LATE, AppendReply(1, true, 0, 0, 0))
        == Peer(1, 0, LOG2, 0, [0, 3, 1], [0, 2, 0], Leader);
  }

  lemma EarlyHandled()
    ensures AnswerAppend(Follower1(LOG2), EARLY).0 == Follower1(LOG1)
  {
    assert LOG2[..1] + EARLY.entries == LOG1;
  }

  lemma FirstRejected(n0: Node)
    ensures Exchanged([n0, Idle(Leader1(LOG3, 2, 0)), Idle(Follower2(LOG0))], 2, FIRST)
         == [n0, Idle(Leader1(LOG3, 1, 0)), Idle(Follower2(LOG0))]
  {
    assert AnswerAppend(Follower2(LOG0), FIRST) == (Follower2(LOG0), AppendReply(2, false, 0, 0, 1));
    assert [2, 0, 2][2 := 1] == [2, 0, 1];
    assert UseAppendReply(Leader1(LOG3, 2, 0), 2, FIRST, AppendReply(2, false, 0, 0, 1)) == Leader1(LOG3, 1, 0);
  }

  lemma SecondStored(n0: Node)
    ensures Exchanged([n0, Idle(Leader1(LOG3, 1, 0)), Idle(Follower2(LOG0))], 2, SECOND)
         == [n0, Idle(Leader1(LOG3, 3, 2)), Idle(Follower2(LOG3))]
  {
    assert LOG0[..1] + SECOND.entries == LOG3;
    assert AnswerAppend(Follower2(LOG0), SECOND) == (Follower2(LOG3), AppendReply(2, true, 0, 0, 0));
    assert [2, 0, 1][2 := 3] == [2, 0, 3] && [0, 0, 0][2 := 2] == [0, 0, 2];
    assert UseAppendReply(Leader1(LOG3, 1, 0), 2, SECOND, AppendReply(2, true, 0, 0, 0)) == Leader1(LOG3, 3, 2);
  }

  lemma Requests()
    ensures NextRequest(Leader0(LOG1), 0, 1) == EARLY && NextRequest(Leader0(LOG2), 0, 1) == LATE
    ensures NextRequest(Leader1(LOG3, 2, 0), 1, 2) == FIRST && NextRequest(Leader1(LOG3, 1, 0), 1, 2) == SECOND
    ensures Propose(Leader0(LOG0), A) == Leader0(LOG1) && Propose(Leader0(LOG1), B) == Leader0(LOG2)
    ensures Propose(Leader1(LOG1, 2, 0), C) == Leader1(LOG3, 2, 0)
  {
  }

  // A stage of the run: its nodes, the number of sends, what was handled, which steps came late.
  ghost predicate Stage(run: seq<Action>, nodes: seq<Node>, sends: nat, handled: map<(nat, nat), nat>, late: set<nat>) {
    Reached(run, nodes, sends) && HandledIn(run) == handled && OutOfOrder(run) == late
  }

  // Peer 0 leads term 1 and sends [a] to peer 1.
  lemma FirstRequest() returns (run: seq<Action>)
    ensures Stage(run, [Idle(Leader0(LOG1)), Idle(Follower1(LOG0)), Idle(Boot())], 1, map[], {})
    ensures Sent(run, AppendRequest(0, 1, EARLY))
  {
    var boot := [Idle(Boot()), Idle(Boot()), Idle(Boot())];
    assert Exec(3, []).c.nodes == boot;
    run := Elect([], boot, 0, 0, 1);
    assert Elected(boot, 0, 1) == [Idle(Leader0(LOG0)), Idle(Follower1(LOG0)), Idle(Boot())];
    Requests();
    run := Submitted(run, [Idle(Leader0(LOG0)), Idle(Follower1(LOG0)), Idle(Boot())], 0, 0, A);
    run := Ask(run, [Idle(Leader0(LOG1)), Idle(Follower1(LOG0)), Idle(Boot())], 0, 0, 1);
  }

  // It then sends [a, b]; neither request has arrived.
  lemma TwoRequests() returns (run: seq<Action>)
    ensures Stage(run, [Idle(Leader0(LOG2)), Idle(Follower1(LOG0)), Idle(Boot())], 2, map[], {})
    ensures Sent(run, AppendRequest(0, 1, EARLY)) && Sent(run, AppendRequest(1, 1, LATE))
  {
    run := FirstRequest();
    Requests();
    run := Submitted(run, [Idle(Leader0(LOG1)), Idle(Follower1(LOG0)), Idle(Boot())], 1, 0, B);
    run := Ask(run, [Idle(Leader0(LOG2)), Idle(Follower1(LOG0)), Idle(Boot())], 1, 0, 1);
  }

  // The later request is handled first, so b is stored by two peers of three.
  lemma LateStored() returns (run: seq<Action>)
    ensures Stage(run, [Idle(Peer(1, 0, LOG2, 0, [0, 3, 1], [0, 2, 0], Leader)), Idle(Follower1(LOG2)), Idle(Boot())],
                  2, map[(1, 1) := 1], {})
    ensures Sent(run, AppendRequest(0, 1, EARLY))
  {
    run := TwoRequests();
    run := Exchange(run, [Idle(Leader0(LOG2)), Idle(Follower1(LOG0)), Idle(Boot())], 2, AppendRequest(1, 1, LATE));
    LateHandled();
  }

  // It is committed and delivered.
  lemma LaterFirst() returns (run: seq<Action>, n0: Node)
    ensures Stage(run, [n0, Idle(Follower1(LOG2)), Idle(Boot())], 2, map[(1, 1) := 1], {})
    ensures Sent(run, AppendRequest(0, 1, EARLY))
    ensures n0.delivered == Deliveries(LOG2, 2)
  {
    run := LateStored();
    MedianOfThree(2);
    var leader := Peer(1, 0, LOG2, 0, [0, 3, 1], [0, 2, 0], Leader);
    assert Matched(leader, 0) == [2, 2, 0];
    run, n0 := CommitAndDeliver(run, [Idle(leader), Idle(Follower1(LOG2)), Idle(Boot())], 2, 0);
  }

  // The earlier request arrives after all and cuts b from peer 1's log.
  lemma EarlierCuts() returns (run: seq<Action>, n0: Node, late: nat)
    ensures Stage(run, [n0, Idle(Follower1(LOG1)), Idle(Boot())], 2, map[(1, 1) := 0], {late})
    ensures n0.delivered == Deliveries(LOG2, 2)
  {
    run, n0 := LaterFirst();
    late := |run|;
    EarlyHandled();
    run := HandleLate(run, [n0, Idle(Follower1(LOG2)), Idle(Boot())], 2, AppendRequest(0, 1, EARLY));
  }

  // Peer 1 wins term 2, and its first request for c finds peer 2's log too short.
  lemma SecondLeader() returns (run: seq<Action>, n0: Node, late: nat)
    ensures Stage(run, [n0, Idle(Leader1(LOG3, 1, 0)), Idle(Follower2(LOG0))], 3, map[(1, 1) := 0, (2, 2) := 2], {late})
    ensures n0.delivered == Deliveries(LOG2, 2)
  {
    run, n0, late := EarlierCuts();
    var before := [n0, Idle(Follower1(LOG1)), Idle(Boot())];
    run := Elect(run, before, 2, 1, 2);
    assert Elected(before, 1, 2) == [n0, Idle(Leader1(LOG1, 2, 0)), Idle(Follower2(LOG0))];
    Requests();
    run := Submitted(run, [n0, Idle(Leader1(LOG1, 2, 0)), Idle(Follower2(LOG0))], 2, 1, C);
    run := Ask(run, [n0, Idle(Leader1(LOG3, 2, 0)), Idle(Follower2(LOG0))], 2, 1, 2);
    run := Exchange(run, [n0, Idle(Leader1(LOG3, 2, 0)), Idle(Follower2(LOG0))], 3, AppendRequest(2, 2, FIRST));
    FirstRejected(n0);
  }

  // The second request replicates c.
  lemma Replaced() returns (run: seq<Action>, n0: Node, late: nat)
    ensures Stage(run, [n0, Idle(Leader1(LOG3, 3, 2)), Idle(Follower2(LOG3))], 4, map[(1, 1) := 0, (2, 2) := 3], {late})
    ensures n0.delivered == Deliveries(LOG2, 2)
  {
    run, n0, late := SecondLeader();
    Requests();
    run := Ask(run, [n0, Idle(Leader1(LOG3, 1, 0)), Idle(Follower2(LOG0))], 3, 1, 2);
    run := Exchange(run, [n0, Idle(Leader1(LOG3, 1, 0)), Idle(Follower2(LOG0))], 4, AppendRequest(3, 2, SECOND));
    SecondStored(n0);
  }

  // Two peers have delivered different commands at index 2, in a run in which one step is out of
  // order; all others, the uses of replies included, respect send order.
  lemma ReorderingBreaksSafety() returns (run: seq<Action>, late: nat)
    ensures Legal(3, run) && OutOfOrder(run) == {late}
    ensures |Exec(3, run).c.nodes| == 3
    ensures Exec(3, run).c.nodes[0].delivered == [ApplyCommand(1, A), ApplyCommand(2, B)]
    ensures Exec(3, run).c.nodes[1].delivered == [ApplyCommand(1, A), ApplyCommand(2, C)]
  {
    var n0, n1;
    run, n0, late := Replaced();
    MedianOfThree(2);
    assert Matched(Leader1(LOG3, 3, 2), 1) == [0, 2, 2];
    run, n1 := CommitAndDeliver(run, [n0, Idle(Leader1(LOG3, 3, 2)), Idle(Follower2(LOG3))], 4, 1);
    TwoDelivered(LOG2);
    TwoDelivered(LOG3);
  }

  lemma TwoDelivered(log: seq<Entry>)
    requires |log| == 3
    ensures Deliveries(log, 2) == [ApplyCommand(1, log[1].command), ApplyCommand(2, log[2].command)]
  {
    assert Deliveries(log, 0) == [];
    assert Deliveries(log, 1) == [ApplyCommand(1, log[1].command)];
  }

  // What one accepted request does to the entries its receiver has acknowledged.  L is the
  // leader's log; the first k entries here are its own.  A request carrying L's entries from
  // prevLogIndex on keeps all k of them if and only if it is a heartbeat, lies wholly at or
  // below commitIndex, or reaches at least as far as they do.  A request handled in send
  // order reaches that far, for the leader's log only grows; an older one may not.
  lemma KeepsAcknowledged(s: Server, args: AppendArgs, L: seq<Entry>, k: nat)
    requires s.Valid() && s.snapshotIndex == 0
    requires s.commitIndex < k <= |s.log| && k <= |L| && s.log[..k] == L[..k]
    requires args.prevLogIndex < |s.log| && args.End() < |L|
    requires args.entries == L[args.prevLogIndex + 1..args.End() + 1]
    ensures k <= |Accept(s, args).log| && Accept(s, args).log[..k] == L[..k]
       <==> args.entries == [] || args.End() <= s.commitIndex || k <= args.End() + 1
  {
    var after := Accept(s, args).log;
    if args.entries != [] && !AlreadyCommitted(s, args) {
      assert after == Merge(s, args) && |after| == args.End() + 1;
      forall i: nat | i < k && k <= |after| ensures after[i] == L[i] {
        assert s.log[..k][i] == L[..k][i];
      }
    }
  }
}
