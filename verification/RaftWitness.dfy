/** How to build a run of three peers step by step and know the state it ends in.  RaftReorder and
    RaftStale use it, each to show that one of the two guards cannot be dropped.
 */
module RaftWitness {
  import opened RaftTypes
  import opened RaftCluster

  // The peers of the witnesses never compact.
  function Peer(term: nat, votedFor: int, log: seq<Entry>, commit: nat, next: seq<int>, matched: seq<int>, role: Role)
    : Server
  {
    Server(term, votedFor, log, commit, 0, next, matched, role, 0, 0, NoSnapshot)
  }

  function Idle(s: Server): Node { Node(s, NoElection, []) }

  const LOG0 := [DUMMY]

  /// ## What a run has done so far

  // The positions of the steps that do not respect send order.
  ghost function OutOfOrder(run: seq<Action>): (late: set<nat>)
    requires Legal(3, run)
    ensures forall k :: k in late ==> k < |run|
    decreases |run|
  {
    if run == [] then {}
    else
      var n := |run| - 1;
      OutOfOrder(run[..n]) + if Orderly(Exec(3, run[..n]), run[n]) then {} else {n}
  }

  // The positions of the steps that do not meet their guard.
  ghost function Unmet(run: seq<Action>): (unmet: set<nat>)
    requires Legal(3, run)
    ensures forall k :: k in unmet ==> k < |run|
    decreases |run|
  {
    if run == [] then {}
    else
      var n := |run| - 1;
      Unmet(run[..n]) + if Guarded(Exec(3, run[..n]), run[n]) then {} else {n}
  }

  // Which requests the peers have handled so far.
  ghost function HandledIn(run: seq<Action>): map<(nat, nat), nat>
    requires Legal(3, run)
  {
    Exec(3, run).h.handled
  }

  ghost predicate Sent(run: seq<Action>, m: Message) {
    Legal(3, run) && m in Exec(3, run).c.net
  }

  ghost predicate Reached(run: seq<Action>, nodes: seq<Node>, sends: nat) {
    Legal(3, run) && Exec(3, run).c.nodes == nodes && Exec(3, run).c.sends == sends
  }

  // run' goes on from run; it handles no further request and has no further step out of order.
  ghost predicate InStep(run: seq<Action>, run': seq<Action>) {
    && Legal(3, run) && Legal(3, run') && run <= run'
    && HandledIn(run') == HandledIn(run) && OutOfOrder(run') == OutOfOrder(run)
    && (forall m :: Sent(run, m) ==> Sent(run', m))
  }

  // Besides, it has no further step outside its guard.
  ghost predicate Calm(run: seq<Action>, run': seq<Action>) {
    InStep(run, run') && Unmet(run') == Unmet(run)
  }

  /// ## One more step

  lemma RecordHandled(w: World, a: Action)
    requires Enabled(w.c, a)
    ensures Step(w, a).h.handled ==
              if a.HandleAppend? then w.h.handled[(a.m.to, a.m.append.term) := a.m.sendNo] else w.h.handled
  {
  }

  lemma LastStep(run: seq<Action>, a: Action)
    ensures var run' := run + [a];
            run' != [] && |run'| - 1 == |run| && run'[..|run|] == run && run'[|run|] == a
  {
  }

  lemma ExtendOrder(run: seq<Action>, a: Action)
    requires Legal(3, run) && Legal(3, run + [a]) && Enabled(Exec(3, run).c, a)
    ensures OutOfOrder(run + [a]) == OutOfOrder(run) + if Orderly(Exec(3, run), a) then {} else {|run|}
  {
    LastStep(run, a);
  }

  lemma ExtendUnmet(run: seq<Action>, a: Action)
    requires Legal(3, run) && Legal(3, run + [a]) && Enabled(Exec(3, run).c, a)
    ensures Unmet(run + [a]) == Unmet(run) + if Guarded(Exec(3, run), a) then {} else {|run|}
  {
    LastStep(run, a);
  }

  lemma ExtendRun(run: seq<Action>, a: Action)
    requires Legal(3, run) && Enabled(Exec(3, run).c, a)
    ensures Legal(3, run + [a]) && Exec(3, run + [a]) == Step(Exec(3, run), a)
  {
    assert (run + [a])[..|run|] == run;
  }

  lemma Extend(run: seq<Action>, a: Action)
    requires Legal(3, run) && Enabled(Exec(3, run).c, a)
    ensures Legal(3, run + [a]) && Exec(3, run + [a]).c == Do(Exec(3, run).c, a)
    ensures HandledIn(run + [a]) ==
              if a.HandleAppend? then HandledIn(run)[(a.m.to, a.m.append.term) := a.m.sendNo] else HandledIn(run)
    ensures OutOfOrder(run + [a]) == OutOfOrder(run) + if Orderly(Exec(3, run), a) then {} else {|run|}
    ensures Unmet(run + [a]) == Unmet(run) + if Guarded(Exec(3, run), a) then {} else {|run|}
    ensures forall m :: Sent(run, m) ==> Sent(run + [a], m)
  {
    ExtendRun(run, a);
    ExtendOrder(run, a);
    ExtendUnmet(run, a);
    RecordHandled(Exec(3, run), a);
  }

  /// ## Elections

  // nextIndex when a peer with a log of that length takes office.
  function FirstGuess(i: nat, length: nat): seq<int> {
    if i == 0 then [0, length, length] else if i == 1 then [length, 0, length] else [length, length, 0]
  }

  function InOffice(s: Server, i: nat): Server {
    s.(currentTerm := s.currentTerm + 1, votedFor := i, role := Leader,
       nextIndex := FirstGuess(i, |s.log|), matchIndex := [0, 0, 0])
  }

  lemma OfficeTaken(s: Server, i: nat)
    requires i < 3 && s.snapshotIndex == 0
    ensures TakeOffice(BeginElection(s, i), i, 3) == InOffice(s, i)
  {
    var s' := TakeOffice(BeginElection(s, i), i, 3);
    assert |s'.nextIndex| == |s'.matchIndex| == 3;
    var guess := FirstGuess(i, |s.log|);
    assert BeginElection(s, i).LogLen() == |s.log|;
    assert s'.nextIndex[0] == guess[0] && s'.nextIndex[1] == guess[1] && s'.nextIndex[2] == guess[2];
    assert s'.nextIndex == FirstGuess(i, |s.log|);
    assert s'.matchIndex == [0, 0, 0];
  }

  function Elected(nodes: seq<Node>, i: nat, to: nat): seq<Node>
    requires i < |nodes| && to < |nodes|
  {
    var term := nodes[i].raft.currentTerm + 1;
    nodes[i := nodes[i].(raft := InOffice(nodes[i].raft, i), election := NoElection)]
         [to := nodes[to].(raft := nodes[to].raft.(currentTerm := term, role := Follower, votedFor := i))]
  }

  ghost predicate CanElect(nodes: seq<Node>, i: nat, to: nat) {
    && |nodes| == 3 && i < 3 && to < 3 && i != to
    && nodes[i].raft.role == Follower && nodes[i].election.NoElection?
    && |nodes[i].raft.log| >= 1 && nodes[i].raft.snapshotIndex == 0
    && nodes[to].raft.currentTerm <= nodes[i].raft.currentTerm && |nodes[to].raft.log| >= 1
    && UpToDate(nodes[to].raft, AskVote(BeginElection(nodes[i].raft, i), i))
  }

  // The nodes once peer i stands for election.
  function Standing(nodes: seq<Node>, i: nat): seq<Node>
    requires i < |nodes|
  {
    var s := BeginElection(nodes[i].raft, i);
    nodes[i := nodes[i].(raft := s, election := Election(s.currentTerm, {}, {}))]
  }

  // The nodes once peer `to` has granted its vote to the candidate i.
  function Granted(nodes: seq<Node>, i: nat, to: nat): seq<Node>
    requires i < |nodes| && to < |nodes|
  {
    var term := nodes[i].raft.currentTerm + 1;
    Standing(nodes, i)[to := nodes[to].(raft := nodes[to].raft.(currentTerm := term, role := Follower, votedFor := i))]
  }

  function Vote(nodes: seq<Node>, i: nat): VoteArgs
    requires i < |nodes| && |nodes[i].raft.log| >= 1
  {
    AskVote(BeginElection(nodes[i].raft, i), i)
  }

  // Peer i stands for election and asks peer `to`.
  lemma Stand(run: seq<Action>, nodes: seq<Node>, sends: nat, i: nat, to: nat) returns (run': seq<Action>)
    requires Reached(run, nodes, sends) && CanElect(nodes, i, to)
    ensures Reached(run', Standing(nodes, i), sends) && Calm(run, run')
    ensures Sent(run', VoteRequest(to, Vote(nodes, i)))
  {
    var r1 := run + [StartElection(i)];
    Extend(run, StartElection(i));
    run' := r1 + [RequestVote(i, to)];
    Extend(r1, RequestVote(i, to));
  }

  // It grants.
  lemma Grant(run: seq<Action>, nodes: seq<Node>, sends: nat, i: nat, to: nat) returns (run': seq<Action>)
    requires CanElect(nodes, i, to) && Reached(run, Standing(nodes, i), sends)
    requires Sent(run, VoteRequest(to, Vote(nodes, i)))
    ensures Reached(run', Granted(nodes, i, to), sends) && Calm(run, run')
    ensures Sent(run', VoteResponse(to, Vote(nodes, i), VoteReply(Vote(nodes, i).term, true)))
  {
    var request := VoteRequest(to, Vote(nodes, i));
    run' := run + [HandleVote(request)];
    Extend(run, HandleVote(request));
  }

  // With two of three votes i leads the next term.
  lemma GrantElects(c: Cluster, nodes: seq<Node>, i: nat, to: nat)
    requires CanElect(nodes, i, to) && c.nodes == Granted(nodes, i, to)
    requires VoteResponse(to, Vote(nodes, i), VoteReply(Vote(nodes, i).term, true)) in c.net
    ensures var a := HandleVoteReply(VoteResponse(to, Vote(nodes, i), VoteReply(Vote(nodes, i).term, true)));
            Enabled(c, a) && Do(c, a).nodes == Elected(nodes, i, to) && Do(c, a).sends == c.sends
  {
    OfficeTaken(nodes[i].raft, i);
    assert c.nodes[i] == Standing(nodes, i)[i];
  }

  lemma TakeGrant(run: seq<Action>, nodes: seq<Node>, sends: nat, i: nat, to: nat) returns (run': seq<Action>)
    requires CanElect(nodes, i, to) && Reached(run, Granted(nodes, i, to), sends)
    requires Sent(run, VoteResponse(to, Vote(nodes, i), VoteReply(Vote(nodes, i).term, true)))
    ensures Reached(run', Elected(nodes, i, to), sends) && Calm(run, run')
  {
    var response := VoteResponse(to, Vote(nodes, i), VoteReply(Vote(nodes, i).term, true));
    GrantElects(Exec(3, run).c, nodes, i, to);
    run' := run + [HandleVoteReply(response)];
    Extend(run, HandleVoteReply(response));
  }

  lemma Elect(run: seq<Action>, nodes: seq<Node>, sends: nat, i: nat, to: nat) returns (run': seq<Action>)
    requires Reached(run, nodes, sends) && CanElect(nodes, i, to)
    ensures Reached(run', Elected(nodes, i, to), sends) && Calm(run, run')
  {
    var r2 := Stand(run, nodes, sends, i, to);
    var r3 := Grant(r2, nodes, sends, i, to);
    run' := TakeGrant(r3, nodes, sends, i, to);
  }

  /// ## Commands, requests and replies

  lemma Submitted(run: seq<Action>, nodes: seq<Node>, sends: nat, i: nat, command: Command) returns (run': seq<Action>)
    requires Reached(run, nodes, sends) && i < |nodes| && nodes[i].raft.role == Leader
    ensures Reached(run', nodes[i := nodes[i].(raft := Propose(nodes[i].raft, command))], sends) && Calm(run, run')
  {
    run' := run + [Submit(i, command)];
    Extend(run, Submit(i, command));
  }

  predicate CanAsk(nodes: seq<Node>, i: nat, to: nat) {
    && i < |nodes| && to < |nodes| && i != to
    && var s := nodes[i].raft;
    && s.role == Leader && to < |s.nextIndex|
    && s.snapshotIndex < s.nextIndex[to] <= s.LogLen()
  }

  lemma Ask(run: seq<Action>, nodes: seq<Node>, sends: nat, i: nat, to: nat) returns (run': seq<Action>)
    requires Reached(run, nodes, sends) && CanAsk(nodes, i, to)
    ensures Reached(run', nodes, sends + 1) && Calm(run, run')
    ensures Sent(run', AppendRequest(sends, to, NextRequest(nodes[i].raft, i, to)))
  {
    run' := run + [Replicate(i, to)];
    Extend(run, Replicate(i, to));
    assert nodes[i := nodes[i].(raft := nodes[i].raft)] == nodes;
  }

  // A request is handled after a later one of its term.
  lemma HandleLate(run: seq<Action>, nodes: seq<Node>, sends: nat, m: Message) returns (run': seq<Action>)
    requires Reached(run, nodes, sends) && Sent(run, m) && m.AppendRequest? && m.to < |nodes|
    requires nodes[m.to].raft.Valid() && nodes[m.to].raft.snapshotIndex <= m.append.prevLogIndex
    requires (m.to, m.append.term) in HandledIn(run) && HandledIn(run)[(m.to, m.append.term)] > m.sendNo
    ensures Reached(run', nodes[m.to := nodes[m.to].(raft := AnswerAppend(nodes[m.to].raft, m.append).0)], sends)
    ensures HandledIn(run') == HandledIn(run)[(m.to, m.append.term) := m.sendNo]
    ensures OutOfOrder(run') == OutOfOrder(run) + {|run|}
  {
    run' := run + [HandleAppend(m)];
    Extend(run, HandleAppend(m));
  }

  // A request is handled, in send order.
  lemma Handle(run: seq<Action>, nodes: seq<Node>, sends: nat, m: Message) returns (run': seq<Action>)
    requires Reached(run, nodes, sends) && Sent(run, m) && m.AppendRequest? && m.to < |nodes|
    requires nodes[m.to].raft.Valid() && nodes[m.to].raft.snapshotIndex <= m.append.prevLogIndex
    requires (m.to, m.append.term) in HandledIn(run) ==> HandledIn(run)[(m.to, m.append.term)] <= m.sendNo
    ensures var (s, reply) := AnswerAppend(nodes[m.to].raft, m.append);
            && Reached(run', nodes[m.to := nodes[m.to].(raft := s)], sends)
            && Sent(run', AppendResponse(m.sendNo, m.to, m.append, reply))
    ensures HandledIn(run') == HandledIn(run)[(m.to, m.append.term) := m.sendNo]
    ensures OutOfOrder(run') == OutOfOrder(run) && run <= run'
    ensures Unmet(run') == Unmet(run) + if Reaches(Exec(3, run), m) then {} else {|run|}
    ensures forall x :: Sent(run, x) ==> Sent(run', x)
  {
    run' := run + [HandleAppend(m)];
    Extend(run, HandleAppend(m));
  }

  ghost predicate CanUse(nodes: seq<Node>, m: Message) {
    && m.AppendResponse? && m.append.leaderId < |nodes|
    && var s := nodes[m.append.leaderId].raft;
    && |s.log| >= 1 && m.to < |s.nextIndex| == |s.matchIndex|
    && s.role == Leader && s.currentTerm == m.append.term
  }

  // A leader uses a reply to a request of its own term.
  lemma Use(run: seq<Action>, nodes: seq<Node>, sends: nat, m: Message) returns (run': seq<Action>)
    requires Reached(run, nodes, sends) && Sent(run, m) && CanUse(nodes, m)
    ensures var i := m.append.leaderId;
            var s := UseAppendReply(nodes[i].raft, m.to, m.append, m.appendReply);
            Reached(run', nodes[i := nodes[i].(raft := s)], sends)
    ensures InStep(run, run')
    ensures m.appendReply.success ==> Calm(run, run')
  {
    run' := run + [HandleAppendReply(m)];
    Extend(run, HandleAppendReply(m));
  }

  lemma Rebooted(run: seq<Action>, nodes: seq<Node>, sends: nat, i: nat) returns (run': seq<Action>)
    requires Reached(run, nodes, sends) && i < |nodes| && |nodes[i].raft.log| >= 1
    ensures Reached(run', nodes[i := Idle(Restart(Persist(nodes[i].raft)))], sends) && Calm(run, run')
  {
    run' := run + [Crash(i)];
    Extend(run, Crash(i));
  }

  /// ## Commits and deliveries

  lemma MedianOfThree(x: int)
    requires x > 0
    ensures Median([x, x, 0]) == x && Median([0, x, x]) == x
  {
    assert [x, x, 0][1..] == [x, 0] && [x, 0][1..] == [0] && [0, x][1..] == [x];
    assert Sort([0]) == [0];
    assert Sort([x, 0]) == Insert(x, [0]) == [0] + Insert(x, []) == [0, x];
    assert Insert(x, [0, x]) == [0] + Insert(x, [x]) == [0, x, x];
    assert Sort([x, x, 0]) == [0, x, x];
    assert [0, x, x][1..] == [x, x] && [x, x][1..] == [x];
    assert Sort([x, x]) == [x, x];
    assert Sort([0, x, x]) == [0, x, x];
  }

  // The commands at indices 1 to k.
  function Deliveries(log: seq<Entry>, k: nat): seq<ApplyMsg>
    requires k < |log|
  {
    if k == 0 then [] else Deliveries(log, k - 1) + [ApplyCommand(k, log[k].command)]
  }

  lemma DeliverNext(run: seq<Action>, nodes: seq<Node>, sends: nat, i: nat) returns (run': seq<Action>)
    requires Reached(run, nodes, sends) && i < |nodes| && CanDeliver(nodes[i].raft)
    ensures Calm(run, run')
    ensures var (s, msg) := Deliver(nodes[i].raft);
            Reached(run', nodes[i := nodes[i].(raft := s, delivered := nodes[i].delivered + [msg])], sends)
  {
    run' := run + [Apply(i)];
    Extend(run, Apply(i));
  }

  lemma {:induction false} DeliverAll(run: seq<Action>, nodes: seq<Node>, sends: nat, i: nat)
    returns (run': seq<Action>, node: Node)
    requires Reached(run, nodes, sends) && i < |nodes|
    requires var s := nodes[i].raft;
             && s.snapshotIndex == 0 && s.lastApplied <= s.commitIndex < |s.log|
             && nodes[i].delivered == Deliveries(s.log, s.lastApplied)
    ensures Reached(run', nodes[i := node], sends) && Calm(run, run')
    ensures node.delivered == Deliveries(nodes[i].raft.log, nodes[i].raft.commitIndex)
    decreases nodes[i].raft.commitIndex - nodes[i].raft.lastApplied
  {
    if nodes[i].raft.lastApplied == nodes[i].raft.commitIndex {
      run', node := run, nodes[i];
      assert nodes[i := nodes[i]] == nodes;
    } else {
      var (s, msg) := Deliver(nodes[i].raft);
      var next := nodes[i := nodes[i].(raft := s, delivered := nodes[i].delivered + [msg])];
      var r1 := DeliverNext(run, nodes, sends, i);
      run', node := DeliverAll(r1, next, sends, i);
      assert next[i := node] == nodes[i := node];
    }
  }

  ghost predicate CanCommitLast(node: Node, i: nat) {
    var s := node.raft;
    && s == Peer(s.currentTerm, s.votedFor, s.log, 0, s.nextIndex, s.matchIndex, Leader)
    && |s.log| >= 2 && s.log[|s.log| - 1].term == s.currentTerm
    && i < |s.matchIndex| && Median(Matched(s, i)) == |s.log| - 1 && node.delivered == []
  }

  lemma LastCommitted(node: Node, i: nat)
    requires CanCommitLast(node, i)
    ensures var s := node.raft;
            && Median(Matched(s, i)) == |s.log| - 1 && s.Holds(|s.log| - 1)
            && AdvanceCommit(s, i) == s.(commitIndex := |s.log| - 1)
  {
  }

  lemma CommitLast(run: seq<Action>, nodes: seq<Node>, sends: nat, i: nat) returns (run': seq<Action>)
    requires Reached(run, nodes, sends) && i < |nodes| && CanCommitLast(nodes[i], i)
    ensures Reached(run', nodes[i := nodes[i].(raft := nodes[i].raft.(commitIndex := |nodes[i].raft.log| - 1))], sends)
    ensures Calm(run, run')
  {
    run' := run + [Commit(i)];
    LastCommitted(nodes[i], i);
    Extend(run, Commit(i));
  }

  // The leader commits the last index of its log and delivers everything up to it.
  lemma CommitAndDeliver(run: seq<Action>, nodes: seq<Node>, sends: nat, i: nat)
    returns (run': seq<Action>, node: Node)
    requires Reached(run, nodes, sends) && i < |nodes| && CanCommitLast(nodes[i], i)
    ensures Reached(run', nodes[i := node], sends) && Calm(run, run')
    ensures node.delivered == Deliveries(nodes[i].raft.log, |nodes[i].raft.log| - 1)
  {
    var next := nodes[i := nodes[i].(raft := nodes[i].raft.(commitIndex := |nodes[i].raft.log| - 1))];
    assert Deliveries(nodes[i].raft.log, 0) == [];
    var r1 := CommitLast(run, nodes, sends, i);
    run', node := DeliverAll(r1, next, sends, i);
    assert next[i := node] == nodes[i := node];
  }
}
