/** A reply from an earlier term matters: a legal run of three peers in which every request is
    handled in send order, one rejection is used outside its term, and two peers deliver different
    commands at index 3.

    Leader 0 of term 3 asks peer 1 about index 4; peer 1 rejects, since its log ends at 3, and the
    rejection is delayed.  Leader 2 of term 4 brings both others to [r, x].  Leader 0 of term 5
    has learnt that peer 1 matches it up to index 2 and appends y.  The old rejection then lifts
    nextIndex[1] to 4, the next success makes that a match at index 3, and 0 commits and delivers
    y, which it alone holds.  Peer 1 wins term 6 and commits and delivers z in its place.
 */
module RaftStale {
  import opened RaftTypes
  import opened RaftCluster
  import opened RaftElection
  import opened RaftWitness
  import opened RaftSafety
  import opened RaftOrder

  /// ## In which runs every guard was met

  lemma {:induction false} InOrderIsOrderly(run: seq<Action>)
    requires Legal(3, run) && OutOfOrder(run) == {}
    ensures LegalOrderly(3, run)
    decreases |run|
  {
    if run != [] {
      var n := |run| - 1;
      assert n !in OutOfOrder(run);
      assert OutOfOrder(run[..n]) <= OutOfOrder(run);
      InOrderIsOrderly(run[..n]);
    }
  }

  lemma {:induction false} UnmetIffNotGuarded(run: seq<Action>)
    requires Legal(3, run)
    ensures Unmet(run) == {} <==> LegalGuarded(3, run)
    decreases |run|
  {
    if run != [] {
      var n := |run| - 1;
      UnmetIffNotGuarded(run[..n]);
      assert Unmet(run[..n]) <= Unmet(run) <= Unmet(run[..n]) + {n};
      assert Guarded(Exec(3, run[..n]), run[n]) <==> n !in Unmet(run);
    }
  }

  lemma InOrderMeetsGuards(run: seq<Action>)
    requires Legal(3, run) && OutOfOrder(run) == {}
    ensures Unmet(run) == {}
  {
    InOrderIsOrderly(run);
    OrderlyIsGuarded(3, run);
    UnmetIffNotGuarded(run);
  }

  // Who has acknowledged something to a leader has handled a request of it, or is that leader.
  ghost predicate AcksHandled(h: History) {
    forall v, term :: (v, term) in h.acks ==>
      (v, term) in h.handled || (term in h.reigns && h.reigns[term].leader == v)
  }

  lemma AcksHandledStep(w: World, a: Action)
    requires ElectionInv(w) && Enabled(w.c, a) && AcksHandled(w.h)
    ensures AcksHandled(Record(w.c, w.h, a))
  {
    if a.HandleVoteReply? && Wins(w.c, a.m) {
      WinnerIsFirst(w, a.m);
    }
  }

  lemma {:induction false} RunAcksHandled(n: nat, run: seq<Action>)
    requires n >= 1 && Legal(n, run)
    ensures AcksHandled(Exec(n, run).h)
    decreases |run|
  {
    if run != [] {
      var before := run[..|run| - 1];
      RunAcksHandled(n, before);
      RunElectionInv(n, before);
      AcksHandledStep(Exec(n, before), run[|run| - 1]);
    }
  }

  // The first request that a follower handles in a term reaches far enough.
  lemma FirstReaches(run: seq<Action>, nodes: seq<Node>, sends: nat, m: Message)
    requires Reached(run, nodes, sends) && Enabled(Exec(3, run).c, HandleAppend(m))
    requires (m.to, m.append.term) !in HandledIn(run)
    requires m.append.leaderId < |nodes| && m.append.leaderId != m.to
    requires var s := nodes[m.append.leaderId].raft; s.role == Leader && s.currentTerm == m.append.term
    ensures Reaches(Exec(3, run), m)
  {
    RunAcksHandled(3, run);
    RunElectionInv(3, run);
    assert Ack(Exec(3, run).h, m.to, m.append.term) == 0;
  }

  /// ## The run

  const P := Cmd("p")
  const Q := Cmd("q")
  const U := Cmd("u")
  const R := Cmd("r")
  const S := Cmd("s")
  const T := Cmd("t")
  const V := Cmd("v")
  const X := Cmd("x")
  const Y := Cmd("y")
  const Z := Cmd("z")

  const LOGP := [DUMMY, Entry(1, P), Entry(1, Q), Entry(1, U)]
  const LOGR := [DUMMY, Entry(2, R)]
  const LOGV := [DUMMY, Entry(2, R), Entry(2, S), Entry(2, T), Entry(2, V)]
  const LOGX := [DUMMY, Entry(2, R), Entry(4, X)]
  const LOGY := [DUMMY, Entry(2, R), Entry(4, X), Entry(5, Y)]
  const LOGZ := [DUMMY, Entry(2, R), Entry(4, X), Entry(6, Z)]

  // The request of term 3, its rejection, and the heartbeat of term 5.
  const OLD := AppendArgs(3, 0, 4, 2, [], 0)
  const REJECTION := AppendResponse(1, 1, OLD, AppendReply(3, false, 0, 0, 4))
  const BEAT := AppendArgs(5, 0, 2, 4, [], 0)
  const MATCH := AppendResponse(5, 1, BEAT, AppendReply(5, true, 0, 0, 0))

  function Plain(term: nat, votedFor: int, log: seq<Entry>): Node {
    Idle(Peer(term, votedFor, log, 0, [], [], Follower))
  }

  function Leads(term: nat, me: nat, log: seq<Entry>, next: seq<int>, matched: seq<int>): Node {
    Idle(Peer(term, me, log, 0, next, matched, Leader))
  }

  function Former(term: nat, votedFor: int, log: seq<Entry>, next: seq<int>): Node {
    Idle(Peer(term, votedFor, log, 0, next, [0, 0, 0], Follower))
  }

  ghost predicate Stage(run: seq<Action>, nodes: seq<Node>, sends: nat, handled: map<(nat, nat), nat>) {
    Reached(run, nodes, sends) && HandledIn(run) == handled && OutOfOrder(run) == {}
  }

  // A request is sent and handled at once.
  lemma Tell(run: seq<Action>, nodes: seq<Node>, sends: nat, i: nat, to: nat) returns (run': seq<Action>)
    requires Reached(run, nodes, sends) && CanAsk(nodes, i, to) && nodes[to].raft.Valid()
    requires var args := NextRequest(nodes[i].raft, i, to);
             && nodes[to].raft.snapshotIndex <= args.prevLogIndex
             && ((to, args.term) in HandledIn(run) ==> HandledIn(run)[(to, args.term)] <= sends)
    ensures var args := NextRequest(nodes[i].raft, i, to); var (s, reply) := AnswerAppend(nodes[to].raft, args);
            && Reached(run', nodes[to := nodes[to].(raft := s)], sends + 1)
            && Sent(run', AppendResponse(sends, to, args, reply))
            && HandledIn(run') == HandledIn(run)[(to, args.term) := sends]
    ensures OutOfOrder(run') == OutOfOrder(run)
    ensures forall x :: Sent(run, x) ==> Sent(run', x)
  {
    var r1 := Ask(run, nodes, sends, i, to);
    run' := Handle(r1, nodes, sends + 1, AppendRequest(sends, to, NextRequest(nodes[i].raft, i, to)));
  }

  function Entries(term: nat, commands: seq<Command>): seq<Entry> {
    if commands == [] then [] else [Entry(term, commands[0])] + Entries(term, commands[1..])
  }

  lemma ThreeEntries(term: nat, a: Command, b: Command, c: Command)
    ensures Entries(term, [a]) == [Entry(term, a)]
    ensures Entries(term, [a, b, c]) == [Entry(term, a), Entry(term, b), Entry(term, c)]
  {
    assert [a, b, c][1..] == [b, c] && [b, c][1..] == [c] && [a][1..] == [c][1..] == [];
    assert Entries(term, [b, c]) == [Entry(term, b)] + Entries(term, [c]);
  }

  function Longer(node: Node, commands: seq<Command>): Node {
    node.(raft := node.raft.(log := node.raft.log + Entries(node.raft.currentTerm, commands)))
  }

  // A leader appends several commands.
  lemma {:induction false} SubmitAll(run: seq<Action>, nodes: seq<Node>, sends: nat, i: nat, commands: seq<Command>)
    returns (run': seq<Action>)
    requires Reached(run, nodes, sends) && i < |nodes| && nodes[i].raft.role == Leader
    ensures Reached(run', nodes[i := Longer(nodes[i], commands)], sends) && Calm(run, run')
    decreases |commands|
  {
    if commands == [] {
      run' := run;
      assert Longer(nodes[i], []) == nodes[i];
      assert nodes[i := nodes[i]] == nodes;
    } else {
      var next := nodes[i := nodes[i].(raft := Propose(nodes[i].raft, commands[0]))];
      var r1 := Submitted(run, nodes, sends, i, commands[0]);
      run' := SubmitAll(r1, next, sends, i, commands[1..]);
      assert Longer(next[i], commands[1..]).raft.log == Longer(nodes[i], commands).raft.log;
      assert next[i := Longer(next[i], commands[1..])] == nodes[i := Longer(nodes[i], commands)];
    }
  }

  // Peer 1 leads term 1 and appends p, q and u.
  lemma Term1() returns (run: seq<Action>)
    ensures Stage(run, [Plain(1, 1, LOG0), Leads(1, 1, LOGP, [1, 0, 1], [0, 0, 0]), Idle(Boot())], 0, map[])
  {
    var boot := [Idle(Boot()), Idle(Boot()), Idle(Boot())];
    assert Exec(3, []).c.nodes == boot;
    run := Elect([], boot, 0, 1, 0);
    var nodes := [Plain(1, 1, LOG0), Leads(1, 1, LOG0, [1, 0, 1], [0, 0, 0]), Idle(Boot())];
    assert Elected(boot, 1, 0) == nodes;
    run := SubmitAll(run, nodes, 0, 1, [P, Q, U]);
    ThreeEntries(1, P, Q, U);
    assert LOG0 + Entries(1, [P, Q, U]) == LOGP;
  }

  // Peer 0 leads term 2 ...
  lemma Term2() returns (run: seq<Action>)
    ensures Stage(run, [Leads(2, 0, LOG0, [0, 1, 1], [0, 0, 0]), Leads(1, 1, LOGP, [1, 0, 1], [0, 0, 0]),
                        Plain(2, 0, LOG0)],
                  0, map[])
  {
    run := Term1();
    var n1 := Leads(1, 1, LOGP, [1, 0, 1], [0, 0, 0]);
    var before := [Plain(1, 1, LOG0), n1, Idle(Boot())];
    run := Elect(run, before, 0, 0, 2);
    assert Elected(before, 0, 2) == [Leads(2, 0, LOG0, [0, 1, 1], [0, 0, 0]), n1, Plain(2, 0, LOG0)];
  }

  // ... and appends r.
  lemma RAppended() returns (run: seq<Action>)
    ensures Stage(run, [Leads(2, 0, LOGR, [0, 1, 1], [0, 0, 0]), Leads(1, 1, LOGP, [1, 0, 1], [0, 0, 0]),
                        Plain(2, 0, LOG0)],
                  0, map[])
  {
    run := Term2();
    var n1 := Leads(1, 1, LOGP, [1, 0, 1], [0, 0, 0]);
    run := SubmitAll(run, [Leads(2, 0, LOG0, [0, 1, 1], [0, 0, 0]), n1, Plain(2, 0, LOG0)], 0, 0, [R]);
    ThreeEntries(2, R, S, T);
    assert LOG0 + Entries(2, [R]) == LOGR;
  }

  // It replicates r to peer 2.
  lemma RSpread() returns (run: seq<Action>)
    ensures Stage(run, [Leads(2, 0, LOGR, [0, 1, 1], [0, 0, 0]), Leads(1, 1, LOGP, [1, 0, 1], [0, 0, 0]),
                        Plain(2, 0, LOGR)],
                  1, map[(2, 2) := 0])
  {
    run := RAppended();
    RStored();
    var n1 := Leads(1, 1, LOGP, [1, 0, 1], [0, 0, 0]);
    run := Tell(run, [Leads(2, 0, LOGR, [0, 1, 1], [0, 0, 0]), n1, Plain(2, 0, LOG0)], 0, 0, 2);
  }

  // It appends s, t and v ...
  lemma STVAppended() returns (run: seq<Action>)
    ensures Stage(run, [Leads(2, 0, LOGV, [0, 1, 1], [0, 0, 0]), Leads(1, 1, LOGP, [1, 0, 1], [0, 0, 0]),
                        Plain(2, 0, LOGR)],
                  1, map[(2, 2) := 0])
  {
    run := RSpread();
    var n1 := Leads(1, 1, LOGP, [1, 0, 1], [0, 0, 0]);
    run := SubmitAll(run, [Leads(2, 0, LOGR, [0, 1, 1], [0, 0, 0]), n1, Plain(2, 0, LOGR)], 1, 0, [S, T, V]);
    ThreeEntries(2, S, T, V);
    assert LOGR + Entries(2, [S, T, V]) == LOGV;
  }

  // ... and crashes.
  lemma Crashed() returns (run: seq<Action>)
    ensures Stage(run, [Plain(2, 0, LOGV), Leads(1, 1, LOGP, [1, 0, 1], [0, 0, 0]), Plain(2, 0, LOGR)], 1,
                  map[(2, 2) := 0])
  {
    run := STVAppended();
    var n1 := Leads(1, 1, LOGP, [1, 0, 1], [0, 0, 0]);
    run := Rebooted(run, [Leads(2, 0, LOGV, [0, 1, 1], [0, 0, 0]), n1, Plain(2, 0, LOGR)], 1, 0);
  }

  lemma RStored()
    ensures NextRequest(Leads(2, 0, LOGR, [0, 1, 1], [0, 0, 0]).raft, 0, 2) == AppendArgs(2, 0, 0, 0, [Entry(2, R)], 0)
    ensures AnswerAppend(Plain(2, 0, LOG0).raft, AppendArgs(2, 0, 0, 0, [Entry(2, R)], 0)).0 == Plain(2, 0, LOGR).raft
  {
    assert LOG0[..1] + [Entry(2, R)] == LOGR;
  }

  // It leads again, in term 3, and peer 1 rejects its heartbeat.  The rejection is delayed.
  lemma Term3() returns (run: seq<Action>)
    ensures Stage(run, [Leads(3, 0, LOGV, [0, 5, 5], [0, 0, 0]), Former(3, -1, LOGP, [1, 0, 1]), Plain(3, 0, LOGR)], 2,
                  map[(2, 2) := 0, (1, 3) := 1])
    ensures Sent(run, REJECTION)
  {
    run := Crashed();
    var n1 := Leads(1, 1, LOGP, [1, 0, 1], [0, 0, 0]);
    var before := [Plain(2, 0, LOGV), n1, Plain(2, 0, LOGR)];
    run := Elect(run, before, 1, 0, 2);
    var nodes := [Leads(3, 0, LOGV, [0, 5, 5], [0, 0, 0]), n1, Plain(3, 0, LOGR)];
    assert Elected(before, 0, 2) == nodes;
    assert NextRequest(nodes[0].raft, 0, 1) == OLD;
    run := Tell(run, nodes, 1, 0, 1);
  }

  // Peer 2 leads term 4 and appends x.
  lemma Term4() returns (run: seq<Action>)
    ensures Stage(run, [Leads(3, 0, LOGV, [0, 5, 5], [0, 0, 0]), Former(4, 2, LOGP, [1, 0, 1]),
                        Leads(4, 2, LOGX, [2, 2, 0], [0, 0, 0])], 2, map[(2, 2) := 0, (1, 3) := 1])
    ensures Sent(run, REJECTION)
  {
    run := Term3();
    var n0 := Leads(3, 0, LOGV, [0, 5, 5], [0, 0, 0]);
    var before := [n0, Former(3, -1, LOGP, [1, 0, 1]), Plain(3, 0, LOGR)];
    run := Elect(run, before, 2, 2, 1);
    var nodes := [n0, Former(4, 2, LOGP, [1, 0, 1]), Leads(4, 2, LOGR, [2, 2, 0], [0, 0, 0])];
    assert Elected(before, 2, 1) == nodes;
    run := SubmitAll(run, nodes, 2, 2, [X]);
    ThreeEntries(4, X, Y, Z);
    assert LOGR + Entries(4, [X]) == LOGX;
  }

  const ONLYX := AppendArgs(4, 2, 1, 2, [Entry(4, X)], 0)
  const FROMR := AppendArgs(4, 2, 0, 0, [Entry(2, R), Entry(4, X)], 0)

  lemma XRejected()
    ensures NextRequest(Leads(4, 2, LOGX, [2, 2, 0], [0, 0, 0]).raft, 2, 1) == ONLYX
    ensures AnswerAppend(Former(4, 2, LOGP, [1, 0, 1]).raft, ONLYX)
         == (Former(4, 2, LOGP, [1, 0, 1]).raft, AppendReply(4, false, 1, 1, 0))
  {
  }

  lemma XBackedUp()
    ensures UseAppendReply(Leads(4, 2, LOGX, [2, 2, 0], [0, 0, 0]).raft, 1, ONLYX, AppendReply(4, false, 1, 1, 0))
         == Leads(4, 2, LOGX, [2, 1, 0], [0, 0, 0]).raft
  {
    var s := Leads(4, 2, LOGX, [2, 2, 0], [0, 0, 0]).raft;
    assert LastAtMost(LOGX, 1, 2) == LastAtMost(LOGX, 1, 1) == LastAtMost(LOGX, 1, 0) == 0;
    assert BackUp(s, AppendReply(4, false, 1, 1, 0)) == 1;
    assert [2, 2, 0][1 := 1] == [2, 1, 0];
  }

  lemma XStored()
    ensures NextRequest(Leads(4, 2, LOGX, [2, 1, 0], [0, 0, 0]).raft, 2, 1) == FROMR
    ensures NextRequest(Leads(4, 2, LOGX, [2, 1, 0], [0, 0, 0]).raft, 2, 0) == ONLYX
    ensures AnswerAppend(Former(4, 2, LOGP, [1, 0, 1]).raft, FROMR).0 == Former(4, 2, LOGX, [1, 0, 1]).raft
    ensures AnswerAppend(Leads(3, 0, LOGV, [0, 5, 5], [0, 0, 0]).raft, ONLYX).0 == Former(4, -1, LOGX, [0, 5, 5]).raft
  {
    assert LOGP[..1] + FROMR.entries == LOGX;
    assert LOGV[..2] + ONLYX.entries == LOGX;
  }

  // Peer 1 rejects x at index 2 ...
  lemma Rejected() returns (run: seq<Action>)
    ensures Stage(run, [Leads(3, 0, LOGV, [0, 5, 5], [0, 0, 0]), Former(4, 2, LOGP, [1, 0, 1]),
                        Leads(4, 2, LOGX, [2, 1, 0], [0, 0, 0])], 3, map[(2, 2) := 0, (1, 3) := 1, (1, 4) := 2])
    ensures Sent(run, REJECTION)
  {
    run := Term4();
    var nodes := [Leads(3, 0, LOGV, [0, 5, 5], [0, 0, 0]), Former(4, 2, LOGP, [1, 0, 1]),
                  Leads(4, 2, LOGX, [2, 2, 0], [0, 0, 0])];
    XRejected();
    XBackedUp();
    run := Tell(run, nodes, 2, 2, 1);
    assert nodes[1 := nodes[1].(raft := nodes[1].raft)] == nodes;
    run := Use(run, nodes, 3, AppendResponse(2, 1, ONLYX, AppendReply(4, false, 1, 1, 0)));
  }

  // ... but then stores r and x ...
  lemma Stored1() returns (run: seq<Action>)
    ensures Stage(run, [Leads(3, 0, LOGV, [0, 5, 5], [0, 0, 0]), Former(4, 2, LOGX, [1, 0, 1]),
                        Leads(4, 2, LOGX, [2, 1, 0], [0, 0, 0])], 4, map[(2, 2) := 0, (1, 3) := 1, (1, 4) := 3])
    ensures Sent(run, REJECTION)
  {
    run := Rejected();
    var n0, n2 := Leads(3, 0, LOGV, [0, 5, 5], [0, 0, 0]), Leads(4, 2, LOGX, [2, 1, 0], [0, 0, 0]);
    XStored();
    run := Tell(run, [n0, Former(4, 2, LOGP, [1, 0, 1]), n2], 3, 2, 1);
  }

  // ... and so does peer 0.
  lemma Spread() returns (run: seq<Action>)
    ensures Stage(run, [Former(4, -1, LOGX, [0, 5, 5]), Former(4, 2, LOGX, [1, 0, 1]),
                        Leads(4, 2, LOGX, [2, 1, 0], [0, 0, 0])],
                  5, map[(2, 2) := 0, (1, 3) := 1, (1, 4) := 3, (0, 4) := 4])
    ensures Sent(run, REJECTION)
  {
    run := Stored1();
    var n0, n2 := Leads(3, 0, LOGV, [0, 5, 5], [0, 0, 0]), Leads(4, 2, LOGX, [2, 1, 0], [0, 0, 0]);
    XStored();
    run := Tell(run, [n0, Former(4, 2, LOGX, [1, 0, 1]), n2], 4, 2, 0);
  }

  // Peer 0 leads term 5 ...
  lemma Term5() returns (run: seq<Action>)
    ensures Stage(run, [Leads(5, 0, LOGX, [0, 3, 3], [0, 0, 0]), Former(5, 0, LOGX, [1, 0, 1]),
                        Leads(4, 2, LOGX, [2, 1, 0], [0, 0, 0])],
                  5, map[(2, 2) := 0, (1, 3) := 1, (1, 4) := 3, (0, 4) := 4])
    ensures Sent(run, REJECTION)
  {
    run := Spread();
    var n2 := Leads(4, 2, LOGX, [2, 1, 0], [0, 0, 0]);
    var before := [Former(4, -1, LOGX, [0, 5, 5]), Former(4, 2, LOGX, [1, 0, 1]), n2];
    run := Elect(run, before, 5, 0, 1);
    assert Elected(before, 0, 1) == [Leads(5, 0, LOGX, [0, 3, 3], [0, 0, 0]), Former(5, 0, LOGX, [1, 0, 1]), n2];
  }

  // ... and peer 1 matches it up to index 2.
  lemma XMatched() returns (run: seq<Action>)
    ensures Stage(run, [Leads(5, 0, LOGX, [0, 3, 3], [0, 0, 0]), Former(5, 0, LOGX, [1, 0, 1]),
                        Leads(4, 2, LOGX, [2, 1, 0], [0, 0, 0])],
                  6, map[(2, 2) := 0, (1, 3) := 1, (1, 4) := 3, (0, 4) := 4, (1, 5) := 5])
    ensures Sent(run, REJECTION) && Sent(run, MATCH)
  {
    run := Term5();
    var nodes := [Leads(5, 0, LOGX, [0, 3, 3], [0, 0, 0]), Former(5, 0, LOGX, [1, 0, 1]),
                  Leads(4, 2, LOGX, [2, 1, 0], [0, 0, 0])];
    assert NextRequest(nodes[0].raft, 0, 1) == BEAT;
    run := Tell(run, nodes, 5, 0, 1);
    assert nodes[1 := nodes[1].(raft := nodes[1].raft)] == nodes;
  }

  // It appends y.
  lemma YAppended() returns (run: seq<Action>)
    ensures Stage(run, [Leads(5, 0, LOGY, [0, 3, 3], [0, 0, 0]), Former(5, 0, LOGX, [1, 0, 1]),
                        Leads(4, 2, LOGX, [2, 1, 0], [0, 0, 0])],
                  6, map[(2, 2) := 0, (1, 3) := 1, (1, 4) := 3, (0, 4) := 4, (1, 5) := 5])
    ensures Sent(run, REJECTION) && Sent(run, MATCH)
  {
    run := XMatched();
    run := SubmitAll(run, [Leads(5, 0, LOGX, [0, 3, 3], [0, 0, 0]), Former(5, 0, LOGX, [1, 0, 1]),
                           Leads(4, 2, LOGX, [2, 1, 0], [0, 0, 0])], 6, 0, [Y]);
    ThreeEntries(5, Y, X, Z);
    assert LOGX + Entries(5, [Y]) == LOGY;
  }

  // Once the rejection was used, in step `late`, no step is out of order or outside its guard.
  ghost predicate After(run: seq<Action>, nodes: seq<Node>, sends: nat, late: nat) {
    && Reached(run, nodes, sends) && OutOfOrder(run) == {late} && Unmet(run) <= {late}
    && late < |run| && run[late] == HandleAppendReply(REJECTION)
  }

  lemma LateUse(s: Server)
    requires s == Leads(5, 0, LOGY, [0, 3, 3], [0, 0, 0]).raft
    ensures UseAppendReply(s, 1, OLD, AppendReply(3, false, 0, 0, 4)) == s.(nextIndex := [0, 4, 3])
    ensures UseAppendReply(s.(nextIndex := [0, 4, 3]), 1, BEAT, AppendReply(5, true, 0, 0, 0))
         == s.(nextIndex := [0, 4, 3], matchIndex := [0, 3, 0])
  {
    assert [0, 3, 3][1 := 4] == [0, 4, 3] && [0, 4, 3][1 := 4] == [0, 4, 3] && [0, 0, 0][1 := 3] == [0, 3, 0];
  }

  // The rejection of term 3 arrives.
  lemma Misled() returns (run: seq<Action>, late: nat)
    ensures After(run, [Leads(5, 0, LOGY, [0, 4, 3], [0, 0, 0]), Former(5, 0, LOGX, [1, 0, 1]),
                        Leads(4, 2, LOGX, [2, 1, 0], [0, 0, 0])],
                  6, late)
    ensures HandledIn(run) == map[(2, 2) := 0, (1, 3) := 1, (1, 4) := 3, (0, 4) := 4, (1, 5) := 5]
    ensures Sent(run, MATCH)
  {
    run := YAppended();
    InOrderMeetsGuards(run);
    LateUse(Leads(5, 0, LOGY, [0, 3, 3], [0, 0, 0]).raft);
    late := |run|;
    Extend(run, HandleAppendReply(REJECTION));
    run := run + [HandleAppendReply(REJECTION)];
  }

  // The success makes it a match.
  lemma Overmatched() returns (run: seq<Action>, late: nat)
    ensures After(run, [Leads(5, 0, LOGY, [0, 4, 3], [0, 3, 0]), Former(5, 0, LOGX, [1, 0, 1]),
                        Leads(4, 2, LOGX, [2, 1, 0], [0, 0, 0])],
                  6, late)
    ensures HandledIn(run) == map[(2, 2) := 0, (1, 3) := 1, (1, 4) := 3, (0, 4) := 4, (1, 5) := 5]
  {
    run, late := Misled();
    var n1, n2 := Former(5, 0, LOGX, [1, 0, 1]), Leads(4, 2, LOGX, [2, 1, 0], [0, 0, 0]);
    LateUse(Leads(5, 0, LOGY, [0, 3, 3], [0, 0, 0]).raft);
    run := Use(run, [Leads(5, 0, LOGY, [0, 4, 3], [0, 0, 0]), n1, n2], 6, MATCH);
  }

  // Now y is committed and delivered.
  lemma YDelivered() returns (run: seq<Action>, n0: Node, late: nat)
    ensures After(run, [n0, Former(5, 0, LOGX, [1, 0, 1]), Leads(4, 2, LOGX, [2, 1, 0], [0, 0, 0])], 6, late)
    ensures HandledIn(run) == map[(2, 2) := 0, (1, 3) := 1, (1, 4) := 3, (0, 4) := 4, (1, 5) := 5]
    ensures n0.delivered == Deliveries(LOGY, 3)
  {
    run, late := Overmatched();
    var n1, n2 := Former(5, 0, LOGX, [1, 0, 1]), Leads(4, 2, LOGX, [2, 1, 0], [0, 0, 0]);
    MedianOfThree(3);
    assert Matched(Leads(5, 0, LOGY, [0, 4, 3], [0, 3, 0]).raft, 0) == [3, 3, 0];
    run, n0 := CommitAndDeliver(run, [Leads(5, 0, LOGY, [0, 4, 3], [0, 3, 0]), n1, n2], 6, 0);
  }

  // Peer 1 leads term 6 without y and appends z.
  lemma Term6() returns (run: seq<Action>, n0: Node, late: nat)
    ensures After(run, [n0, Leads(6, 1, LOGZ, [3, 0, 3], [0, 0, 0]), Former(6, 1, LOGX, [2, 1, 0])], 6, late)
    ensures HandledIn(run) == map[(2, 2) := 0, (1, 3) := 1, (1, 4) := 3, (0, 4) := 4, (1, 5) := 5]
    ensures n0.delivered == Deliveries(LOGY, 3)
  {
    run, n0, late := YDelivered();
    var before := [n0, Former(5, 0, LOGX, [1, 0, 1]), Leads(4, 2, LOGX, [2, 1, 0], [0, 0, 0])];
    run := Elect(run, before, 6, 1, 2);
    var nodes := [n0, Leads(6, 1, LOGX, [3, 0, 3], [0, 0, 0]), Former(6, 1, LOGX, [2, 1, 0])];
    assert Elected(before, 1, 2) == nodes;
    run := SubmitAll(run, nodes, 6, 1, [Z]);
    ThreeEntries(6, Z, X, Y);
    assert LOGX + Entries(6, [Z]) == LOGZ;
  }

  const ONLYZ := AppendArgs(6, 1, 2, 4, [Entry(6, Z)], 0)

  lemma ZStored()
    ensures NextRequest(Leads(6, 1, LOGZ, [3, 0, 3], [0, 0, 0]).raft, 1, 2) == ONLYZ
    ensures AnswerAppend(Former(6, 1, LOGX, [2, 1, 0]).raft, ONLYZ)
         == (Former(6, 1, LOGZ, [2, 1, 0]).raft, AppendReply(6, true, 0, 0, 0))
    ensures UseAppendReply(Leads(6, 1, LOGZ, [3, 0, 3], [0, 0, 0]).raft, 2, ONLYZ, AppendReply(6, true, 0, 0, 0))
         == Leads(6, 1, LOGZ, [3, 0, 4], [0, 0, 3]).raft
  {
    assert LOGX[..3] + [Entry(6, Z)] == LOGZ;
    assert [3, 0, 3][2 := 4] == [3, 0, 4] && [0, 0, 0][2 := 3] == [0, 0, 3];
  }

  // It sends z to peer 2, within the guard ...
  lemma ZAsked() returns (run: seq<Action>, n0: Node, late: nat)
    ensures After(run, [n0, Leads(6, 1, LOGZ, [3, 0, 3], [0, 0, 0]), Former(6, 1, LOGX, [2, 1, 0])], 7, late)
    ensures HandledIn(run) == map[(2, 2) := 0, (1, 3) := 1, (1, 4) := 3, (0, 4) := 4, (1, 5) := 5]
    ensures Sent(run, AppendRequest(6, 2, ONLYZ)) && Enabled(Exec(3, run).c, HandleAppend(AppendRequest(6, 2, ONLYZ)))
    ensures Reaches(Exec(3, run), AppendRequest(6, 2, ONLYZ))
    ensures n0.delivered == Deliveries(LOGY, 3)
  {
    run, n0, late := Term6();
    var nodes := [n0, Leads(6, 1, LOGZ, [3, 0, 3], [0, 0, 0]), Former(6, 1, LOGX, [2, 1, 0])];
    ZStored();
    run := Ask(run, nodes, 6, 1, 2);
    FirstReaches(run, nodes, 7, AppendRequest(6, 2, ONLYZ));
  }

  // ... which stores it.
  lemma ZSpread() returns (run: seq<Action>, n0: Node, late: nat)
    ensures After(run, [n0, Leads(6, 1, LOGZ, [3, 0, 3], [0, 0, 0]), Former(6, 1, LOGZ, [2, 1, 0])], 7, late)
    ensures Sent(run, AppendResponse(6, 2, ONLYZ, AppendReply(6, true, 0, 0, 0)))
    ensures n0.delivered == Deliveries(LOGY, 3)
  {
    run, n0, late := ZAsked();
    ZStored();
    var nodes := [n0, Leads(6, 1, LOGZ, [3, 0, 3], [0, 0, 0]), Former(6, 1, LOGX, [2, 1, 0])];
    run := Handle(run, nodes, 7, AppendRequest(6, 2, ONLYZ));
  }

  // One command at index 3 is delivered by peer 0 and another by peer 1, in a run in which every
  // request is handled in send order and one rejection is used outside its term; that use is the
  // only step of the run outside the guards.
  lemma StaleRejectionBreaksSafety() returns (run: seq<Action>, late: nat)
    ensures Legal(3, run) && OutOfOrder(run) == Unmet(run) == {late}
    ensures late < |run| && run[late] == HandleAppendReply(REJECTION)
    ensures |Exec(3, run).c.nodes| == 3
    ensures Exec(3, run).c.nodes[0].delivered == [ApplyCommand(1, R), ApplyCommand(2, X), ApplyCommand(3, Y)]
    ensures Exec(3, run).c.nodes[1].delivered == [ApplyCommand(1, R), ApplyCommand(2, X), ApplyCommand(3, Z)]
  {
    var n0, n1;
    run, n0, late := ZSpread();
    var n2 := Former(6, 1, LOGZ, [2, 1, 0]);
    ZStored();
    run := Use(run, [n0, Leads(6, 1, LOGZ, [3, 0, 3], [0, 0, 0]), n2], 7,
               AppendResponse(6, 2, ONLYZ, AppendReply(6, true, 0, 0, 0)));
    MedianOfThree(3);
    assert Matched(Leads(6, 1, LOGZ, [3, 0, 4], [0, 0, 3]).raft, 1) == [0, 3, 3];
    run, n1 := CommitAndDeliver(run, [n0, Leads(6, 1, LOGZ, [3, 0, 4], [0, 0, 3]), n2], 7, 1);
    ThreeDelivered(LOGY);
    ThreeDelivered(LOGZ);
    NotGuarded(run);
  }

  lemma ThreeDelivered(log: seq<Entry>)
    requires |log| == 4
    ensures Deliveries(log, 3)
         == [ApplyCommand(1, log[1].command), ApplyCommand(2, log[2].command), ApplyCommand(3, log[3].command)]
  {
    assert Deliveries(log, 1) == Deliveries(log, 0) + [ApplyCommand(1, log[1].command)];
    assert Deliveries(log, 2) == Deliveries(log, 1) + [ApplyCommand(2, log[2].command)];
  }

  lemma PrefixesAgree(run: seq<Action>)
    requires LegalGuarded(3, run) && |Exec(3, run).c.nodes| == 3
    ensures var a, b := Exec(3, run).c.nodes[0].delivered, Exec(3, run).c.nodes[1].delivered;
            a <= b || b <= a
  {
    StateMachineSafety(3, run, |run|, |run|, 0, 1);
    assert run[..|run|] == run;
  }

  // Two different deliveries at one index take a step outside the guards.
  lemma NotGuarded(run: seq<Action>)
    requires Legal(3, run) && |Exec(3, run).c.nodes| == 3
    requires Exec(3, run).c.nodes[0].delivered == [ApplyCommand(1, R), ApplyCommand(2, X), ApplyCommand(3, Y)]
    requires Exec(3, run).c.nodes[1].delivered == [ApplyCommand(1, R), ApplyCommand(2, X), ApplyCommand(3, Z)]
    ensures Unmet(run) != {}
  {
    UnmetIffNotGuarded(run);
    var a, b := Exec(3, run).c.nodes[0].delivered, Exec(3, run).c.nodes[1].delivered;
    assert a[2] != b[2];
    assert !(a <= b) && !(b <= a);
    if LegalGuarded(3, run) {
      PrefixesAgree(run);
    }
  }
}
