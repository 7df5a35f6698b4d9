/** Clusters of two or more peers can make progress, and a lone peer cannot.  For every n >= 2, every
    peer i and every command there is a run, in send order throughout, in which i wins an election,
    the command is committed, and every peer delivers it.  A peer without others never leads, since
    it counts votes only when a reply arrives.
 */
module RaftLive {
  import opened RaftTypes
  import opened RaftCluster
  import opened RaftQuorum
  import opened RaftElection
  import Witness = RaftWitness

  /// ## A run in send order, one step longer

  // Such a run has led to these nodes, and no request handled so far is newer than the sends.
  ghost predicate At(n: nat, run: seq<Action>, nodes: seq<Node>, sends: nat) {
    && Legal(n, run) && LegalOrderly(n, run)
    && Exec(n, run).c.nodes == nodes && Exec(n, run).c.sends == sends
    && (forall key :: key in Exec(n, run).h.handled ==> Exec(n, run).h.handled[key] < sends)
  }

  ghost predicate Sent(n: nat, run: seq<Action>, m: Message) {
    Legal(n, run) && m in Exec(n, run).c.net
  }

  lemma OneMore(n: nat, run: seq<Action>, nodes: seq<Node>, sends: nat, a: Action)
    requires At(n, run, nodes, sends) && Enabled(Exec(n, run).c, a) && Orderly(Exec(n, run), a)
    ensures Legal(n, run + [a]) && LegalOrderly(n, run + [a])
    ensures Exec(n, run + [a]) == Step(Exec(n, run), a)
  {
    var run' := run + [a];
    assert run'[..|run'| - 1] == run && run'[|run'| - 1] == a;
  }

  // Steps other than the use of a reply and the handling of an AppendEntries are always in order.
  lemma Plain(n: nat, run: seq<Action>, nodes: seq<Node>, sends: nat, a: Action) returns (run': seq<Action>)
    requires At(n, run, nodes, sends) && Enabled(Exec(n, run).c, a)
    requires !a.HandleAppend? && !a.HandleAppendReply? && !a.Replicate?
    ensures Legal(n, run') && Exec(n, run').c == Do(Exec(n, run).c, a)
    ensures At(n, run', Do(Exec(n, run).c, a).nodes, sends)
  {
    run' := run + [a];
    OneMore(n, run, nodes, sends, a);
    Witness.RecordHandled(Exec(n, run), a);
  }

  /// ## A vote

  // Peer j is asked for its vote and grants it.
  lemma AskAndGrant(n: nat, run: seq<Action>, nodes: seq<Node>, sends: nat, i: nat, j: nat) returns (run': seq<Action>)
    requires At(n, run, nodes, sends) && i < |nodes| && j < |nodes| && i != j
    requires nodes[i].raft.role == Candidate && |nodes[i].raft.log| >= 1 && |nodes[j].raft.log| >= 1
    requires var vote := AskVote(nodes[i].raft, i);
             vote.term > nodes[j].raft.currentTerm && UpToDate(nodes[j].raft, vote)
    ensures var vote := AskVote(nodes[i].raft, i);
            && At(n, run', nodes[j := nodes[j].(raft := AnswerVote(nodes[j].raft, vote).0)], sends)
            && Sent(n, run', VoteResponse(j, vote, VoteReply(vote.term, true)))
  {
    var vote := AskVote(nodes[i].raft, i);
    var r1 := Plain(n, run, nodes, sends, RequestVote(i, j));
    assert VoteRequest(j, vote) in Exec(n, r1).c.net;
    run' := Plain(n, r1, nodes, sends, HandleVote(VoteRequest(j, vote)));
  }

  // Its vote is counted.
  lemma Counts(n: nat, run: seq<Action>, nodes: seq<Node>, sends: nat, i: nat, j: nat, vote: VoteArgs)
    returns (run': seq<Action>)
    requires At(n, run, nodes, sends) && i < |nodes| && vote.candidateId == i
    requires Sent(n, run, VoteResponse(j, vote, VoteReply(vote.term, true)))
    requires var e := nodes[i].election; e.Election? && e.term == vote.term && j !in e.answered
    ensures var e, s := nodes[i].election, nodes[i].raft;
            var (s', tally) := CountVote(s, i, |nodes|, e.term, 1 + |e.granted|, VoteReply(vote.term, true));
            var e' := if tally.Over? then NoElection else Election(e.term, e.answered + {j}, e.granted + {j});
            At(n, run', nodes[i := nodes[i].(raft := s', election := e')], sends)
  {
    run' := Plain(n, run, nodes, sends, HandleVoteReply(VoteResponse(j, vote, VoteReply(vote.term, true))));
  }

  /// ## An election

  // The peers below k other than i.
  function Others(i: nat, k: nat): (s: set<nat>)
    ensures forall j: nat :: j in s <==> j < k && j != i
    ensures |s| == if i < k then k - 1 else k
  {
    if k == 0 then {} else Others(i, k - 1) + if k - 1 == i then {} else {k - 1}
  }

  function Asked(i: nat): Node { Node(Boot().(currentTerm := 1, votedFor := i), NoElection, []) }

  // The peers below k have voted for i, the others have done nothing yet.
  ghost predicate Voting(nodes: seq<Node>, n: nat, i: nat, k: nat) {
    && |nodes| == n && i < n
    && nodes[i] == Node(BeginElection(Boot(), i), Election(1, Others(i, k), Others(i, k)), [])
    && forall j :: 0 <= j < n && j != i ==> nodes[j] == if j < k then Asked(i) else Node(Boot(), NoElection, [])
  }

  function LeaderNode(n: nat, i: nat): Node {
    Node(TakeOffice(BeginElection(Boot(), i), i, n), NoElection, [])
  }

  // Peer i leads, whoever voted for it.
  ghost predicate Led(nodes: seq<Node>, n: nat, i: nat) {
    && |nodes| == n && i < n && nodes[i] == LeaderNode(n, i)
    && forall j :: 0 <= j < n && j != i ==> nodes[j] == Asked(i) || nodes[j] == Node(Boot(), NoElection, [])
  }

  lemma FirstVote(i: nat)
    ensures var s := BeginElection(Boot(), i); var vote := AskVote(s, i);
            && vote == VoteArgs(1, i, 0, 0) && UpToDate(Boot(), vote)
            && AnswerVote(Boot(), vote).0 == Asked(i).raft
  {
  }

  // The nodes when peer k has granted its vote too, counted or not.
  function Counted(nodes: seq<Node>, n: nat, i: nat, k: nat): seq<Node>
    requires |nodes| == n && i < n && k < n
  {
    var g := Others(i, k) + {k};
    nodes[k := Asked(i)]
         [i := if |g| + 1 >= n / 2 + 1 then LeaderNode(n, i) else Node(BeginElection(Boot(), i), Election(1, g, g), [])]
  }

  lemma WonIsLed(nodes: seq<Node>, n: nat, i: nat, k: nat)
    requires Voting(nodes, n, i, k) && k < n && k != i
    ensures Led(nodes[k := Asked(i)][i := LeaderNode(n, i)], n, i)
  {
  }

  lemma MoreVoting(nodes: seq<Node>, n: nat, i: nat, k: nat, g: set<nat>)
    requires Voting(nodes, n, i, k) && k < n && k != i && g == Others(i, k + 1)
    ensures Voting(nodes[k := Asked(i)][i := Node(BeginElection(Boot(), i), Election(1, g, g), [])], n, i, k + 1)
  {
  }

  lemma OneMoreOther(i: nat, k: nat)
    requires k != i
    ensures Others(i, k + 1) == Others(i, k) + {k} && |Others(i, k) + {k}| == |Others(i, k)| + 1
  {
  }

  lemma CountedIs(nodes: seq<Node>, n: nat, i: nat, k: nat)
    requires Voting(nodes, n, i, k) && k < n && k != i
    ensures if |Others(i, k)| + 2 >= n / 2 + 1 then Led(Counted(nodes, n, i, k), n, i)
            else Voting(Counted(nodes, n, i, k), n, i, k + 1)
  {
    OneMoreOther(i, k);
    if |Others(i, k)| + 2 >= n / 2 + 1 {
      WonIsLed(nodes, n, i, k);
    } else {
      MoreVoting(nodes, n, i, k, Others(i, k) + {k});
    }
  }

  lemma OneVote(n: nat, run: seq<Action>, nodes: seq<Node>, i: nat, k: nat) returns (run': seq<Action>)
    requires At(n, run, nodes, 0) && Voting(nodes, n, i, k) && k < n && k != i
    ensures At(n, run', Counted(nodes, n, i, k), 0)
  {
    FirstVote(i);
    assert |Others(i, k) + {k}| == |Others(i, k)| + 1;
    var vote, asked := AskVote(nodes[i].raft, i), nodes[k := Asked(i)];
    var r1 := AskAndGrant(n, run, nodes, 0, i, k);
    run' := Counts(n, r1, asked, 0, i, k, vote);
  }

  lemma NotItself(nodes: seq<Node>, n: nat, i: nat)
    requires Voting(nodes, n, i, i)
    ensures Voting(nodes, n, i, i + 1) && Others(i, i + 1) == Others(i, i)
  {
    assert Others(i, i + 1) == Others(i, i);
  }

  lemma {:induction false} Collect(n: nat, run: seq<Action>, nodes: seq<Node>, i: nat, k: nat)
    returns (run': seq<Action>, nodes': seq<Node>)
    requires n >= 2 && At(n, run, nodes, 0) && Voting(nodes, n, i, k) && k <= n
    requires |Others(i, k)| < n / 2
    ensures At(n, run', nodes', 0) && Led(nodes', n, i)
    decreases n - k
  {
    assert k < n;
    if k == i {
      NotItself(nodes, n, i);
      run', nodes' := Collect(n, run, nodes, i, k + 1);
    } else {
      var r1 := OneVote(n, run, nodes, i, k);
      var next := Counted(nodes, n, i, k);
      CountedIs(nodes, n, i, k);
      OneMoreOther(i, k);
      if |Others(i, k)| + 2 >= n / 2 + 1 {
        run', nodes' := r1, next;
      } else {
        run', nodes' := Collect(n, r1, next, i, k + 1);
      }
    }
  }

  // Any peer of two or more can win the first election.
  lemma CanLead(n: nat, i: nat) returns (run: seq<Action>, nodes: seq<Node>)
    requires n >= 2 && i < n
    ensures At(n, run, nodes, 0) && Led(nodes, n, i)
  {
    var boot := Exec(n, []).c.nodes;
    assert At(n, [], boot, 0);
    var r1 := Plain(n, [], boot, 0, StartElection(i));
    run, nodes := Collect(n, r1, Do(Exec(n, []).c, StartElection(i)).nodes, i, 0);
  }

  /// ## A lone peer

  lemma LoneStep(w: World, a: Action)
    requires Shape(w.c) && Enabled(w.c, a) && |w.c.nodes| == 1 && w.c.nodes[0].raft.role != Leader
    ensures |Do(w.c, a).nodes| == 1 && Do(w.c, a).nodes[0].raft.role != Leader
  {
    forall m | m in w.c.net ensures !m.VoteResponse? {
      assert MessageShape(|w.c.nodes|, m);
    }
  }

  // A peer without others never leads.
  lemma {:induction false} LoneNeverLeads(run: seq<Action>)
    requires Legal(1, run)
    ensures |Exec(1, run).c.nodes| == 1 && Exec(1, run).c.nodes[0].raft.role != Leader
    decreases |run|
  {
    if run != [] {
      var before, a := run[..|run| - 1], run[|run| - 1];
      LoneNeverLeads(before);
      RunElectionInv(1, before);
      LoneStep(Exec(1, before), a);
    }
  }

  ghost predicate SomeoneLeads(n: nat, run: seq<Action>)
    requires Legal(n, run)
  {
    exists i :: 0 <= i < |Exec(n, run).c.nodes| && Exec(n, run).c.nodes[i].raft.role == Leader
  }

  // Some run of n peers elects a leader if and only if there are at least two.
  lemma ElectsIffTwo(n: nat)
    requires n >= 1
    ensures (exists run :: Legal(n, run) && SomeoneLeads(n, run)) <==> n >= 2
  {
    if n >= 2 {
      var run, nodes := CanLead(n, 0);
      assert SomeoneLeads(n, run);
    } else {
      forall run | Legal(n, run) ensures !SomeoneLeads(n, run) {
        LoneNeverLeads(run);
      }
    }
  }

  /// ## One request and its reply

  predicate CanAsk(nodes: seq<Node>, i: nat, j: nat) {
    && i < |nodes| && j < |nodes| && i != j
    && var s := nodes[i].raft;
    && s.role == Leader && j < |s.nextIndex| == |s.matchIndex|
    && s.snapshotIndex < s.nextIndex[j] <= s.LogLen()
  }

  // The nodes once j has handled the leader's next request and i has used the reply.
  function Told(nodes: seq<Node>, i: nat, j: nat): seq<Node>
    requires CanAsk(nodes, i, j)
    requires nodes[j].raft.Valid() && nodes[j].raft.snapshotIndex < nodes[i].raft.nextIndex[j]
  {
    var args := NextRequest(nodes[i].raft, i, j);
    var (s, reply) := AnswerAppend(nodes[j].raft, args);
    nodes[j := nodes[j].(raft := s)][i := nodes[i].(raft := UseAppendReply(nodes[i].raft, j, args, reply))]
  }

  lemma Asks(n: nat, run: seq<Action>, nodes: seq<Node>, sends: nat, i: nat, j: nat) returns (run': seq<Action>)
    requires At(n, run, nodes, sends) && CanAsk(nodes, i, j)
    ensures At(n, run', nodes, sends + 1)
    ensures Sent(n, run', AppendRequest(sends, j, NextRequest(nodes[i].raft, i, j)))
  {
    run' := run + [Replicate(i, j)];
    OneMore(n, run, nodes, sends, Replicate(i, j));
    Witness.RecordHandled(Exec(n, run), Replicate(i, j));
    assert nodes[i := nodes[i].(raft := nodes[i].raft)] == nodes;
  }

  lemma Answers(n: nat, run: seq<Action>, nodes: seq<Node>, sends: nat, m: Message) returns (run': seq<Action>)
    requires At(n, run, nodes, sends) && Sent(n, run, m) && m.AppendRequest? && m.sendNo + 1 == sends
    requires m.to < |nodes| && nodes[m.to].raft.Valid() && nodes[m.to].raft.snapshotIndex <= m.append.prevLogIndex
    ensures var (s, reply) := AnswerAppend(nodes[m.to].raft, m.append);
            && At(n, run', nodes[m.to := nodes[m.to].(raft := s)], sends)
            && Sent(n, run', AppendResponse(m.sendNo, m.to, m.append, reply))
  {
    var w := Exec(n, run);
    assert (m.to, m.append.term) in w.h.handled ==> w.h.handled[(m.to, m.append.term)] < sends;
    run' := run + [HandleAppend(m)];
    OneMore(n, run, nodes, sends, HandleAppend(m));
    Witness.RecordHandled(w, HandleAppend(m));
  }

  lemma Uses(n: nat, run: seq<Action>, nodes: seq<Node>, sends: nat, m: Message) returns (run': seq<Action>)
    requires At(n, run, nodes, sends) && Sent(n, run, m) && m.AppendResponse? && m.append.leaderId < |nodes|
    requires var s := nodes[m.append.leaderId].raft;
             && |s.log| >= 1 && m.to < |s.nextIndex| == |s.matchIndex|
             && s.role == Leader && s.currentTerm == m.append.term
    ensures var i := m.append.leaderId; var s := UseAppendReply(nodes[i].raft, m.to, m.append, m.appendReply);
            At(n, run', nodes[i := nodes[i].(raft := s)], sends)
  {
    run' := run + [HandleAppendReply(m)];
    OneMore(n, run, nodes, sends, HandleAppendReply(m));
    Witness.RecordHandled(Exec(n, run), HandleAppendReply(m));
  }

  lemma Tell(n: nat, run: seq<Action>, nodes: seq<Node>, sends: nat, i: nat, j: nat) returns (run': seq<Action>)
    requires At(n, run, nodes, sends) && CanAsk(nodes, i, j) && |nodes[i].raft.log| >= 1
    requires nodes[j].raft.Valid() && nodes[j].raft.snapshotIndex < nodes[i].raft.nextIndex[j]
    ensures At(n, run', Told(nodes, i, j), sends + 1)
  {
    var args := NextRequest(nodes[i].raft, i, j);
    var (s, reply) := AnswerAppend(nodes[j].raft, args);
    var r1 := Asks(n, run, nodes, sends, i, j);
    var r2 := Answers(n, r1, nodes, sends + 1, AppendRequest(sends, j, args));
    run' := Uses(n, r2, nodes[j := nodes[j].(raft := s)], sends + 1, AppendResponse(sends, j, args, reply));
  }

  /// ## One command

  function Logged(command: Command): seq<Entry> { [DUMMY, Entry(1, command)] }

  // The leader when the peers below k have stored the command.
  function Spreader(n: nat, i: nat, command: Command, k: nat): Server {
    Server(1, i, Logged(command), 0, 0, seq(n, j => if j == i then 0 else if j < k then 2 else 1),
           seq(n, j => if j != i && j < k then 1 else 0), Leader, 0, 0, NoSnapshot)
  }

  predicate Stores(node: Node, command: Command) {
    node == Node(Boot().(currentTerm := 1, votedFor := node.raft.votedFor, log := Logged(command)), NoElection, [])
  }

  ghost predicate Spread(nodes: seq<Node>, n: nat, i: nat, command: Command, k: nat) {
    && |nodes| == n && i < n && nodes[i] == Node(Spreader(n, i, command, k), NoElection, [])
    && (forall j :: 0 <= j < n && j != i && j < k ==> Stores(nodes[j], command))
    && (forall j :: 0 <= j < n && j != i && j >= k ==>
          nodes[j] == Asked(i) || nodes[j] == Node(Boot(), NoElection, []))
  }

  lemma FirstAccepted(f: Server, i: nat, command: Command)
    requires f == Boot().(currentTerm := 1, votedFor := f.votedFor)
    ensures var args := AppendArgs(1, i, 0, 0, [Entry(1, command)], 0);
            f.Valid() && f.Holds(0) && Accept(f, args) == f.(log := Logged(command))
  {
    var args := AppendArgs(1, i, 0, 0, [Entry(1, command)], 0);
    assert Merge(f, args) == [DUMMY] + [Entry(1, command)] == Logged(command);
  }

  // A peer that has done nothing yet, or has only voted, stores the command.
  lemma FirstStored(s: Server, i: nat, command: Command)
    requires s == Boot() || s == Asked(i).raft
    ensures var args := AppendArgs(1, i, 0, 0, [Entry(1, command)], 0);
            var (s', reply) := AnswerAppend(s, args);
            && reply == AppendReply(1, true, 0, 0, 0)
            && s' == Boot().(currentTerm := 1, votedFor := s'.votedFor, log := Logged(command))
  {
    var args := AppendArgs(1, i, 0, 0, [Entry(1, command)], 0);
    var f := Follow(s, args);
    assert f == Boot().(currentTerm := 1, votedFor := f.votedFor);
    FirstAccepted(f, i, command);
    assert AnswerAppend(s, args) == (Accept(f, args), AppendReply(1, true, 0, 0, 0));
  }

  lemma SpreaderNext(n: nat, i: nat, command: Command, k: nat)
    requires k < n && k != i
    ensures var s := Spreader(n, i, command, k);
            && k < |s.nextIndex| == |s.matchIndex| && s.nextIndex[k] == 1
            && NextRequest(s, i, k) == AppendArgs(1, i, 0, 0, [Entry(1, command)], 0)
            && UseAppendReply(s, k, NextRequest(s, i, k), AppendReply(1, true, 0, 0, 0))
               == Spreader(n, i, command, k + 1)
  {
    var s, t := Spreader(n, i, command, k), Spreader(n, i, command, k + 1);
    assert s.log[1..] == [Entry(1, command)];
    assert s.nextIndex[k := 2] == t.nextIndex;
    assert s.matchIndex[k := 1] == t.matchIndex;
  }

  lemma SpreadStep(nodes: seq<Node>, n: nat, i: nat, command: Command, k: nat, node: Node)
    requires Spread(nodes, n, i, command, k) && k < n && k != i && Stores(node, command)
    ensures Spread(nodes[k := node][i := Node(Spreader(n, i, command, k + 1), NoElection, [])], n, i, command, k + 1)
  {
  }

  lemma ToldIs(nodes: seq<Node>, i: nat, j: nat, s: Server, reply: AppendReply, t: Server)
    requires CanAsk(nodes, i, j)
    requires nodes[j].raft.Valid() && nodes[j].raft.snapshotIndex < nodes[i].raft.nextIndex[j]
    requires AnswerAppend(nodes[j].raft, NextRequest(nodes[i].raft, i, j)) == (s, reply)
    requires UseAppendReply(nodes[i].raft, j, NextRequest(nodes[i].raft, i, j), reply) == t
    ensures Told(nodes, i, j) == nodes[j := nodes[j].(raft := s)][i := nodes[i].(raft := t)]
  {
  }

  // One peer stores the command and the leader hears of it.
  lemma OneStored(nodes: seq<Node>, n: nat, i: nat, command: Command, k: nat) returns (s: Server)
    requires k < |nodes| == n && i < n && k != i && nodes[i].raft == Spreader(n, i, command, k)
    requires nodes[k].raft == Boot() || nodes[k].raft == Asked(i).raft
    ensures CanAsk(nodes, i, k) && nodes[k].raft.Valid()
    ensures nodes[k].raft.snapshotIndex < nodes[i].raft.nextIndex[k]
    ensures Told(nodes, i, k)
         == nodes[k := nodes[k].(raft := s)][i := nodes[i].(raft := Spreader(n, i, command, k + 1))]
    ensures s == Boot().(currentTerm := 1, votedFor := s.votedFor, log := Logged(command))
  {
    SpreaderNext(n, i, command, k);
    FirstStored(nodes[k].raft, i, command);
    s := AnswerAppend(nodes[k].raft, AppendArgs(1, i, 0, 0, [Entry(1, command)], 0)).0;
    ToldIs(nodes, i, k, s, AppendReply(1, true, 0, 0, 0), Spreader(n, i, command, k + 1));
  }

  lemma SpreadOne(n: nat, run: seq<Action>, nodes: seq<Node>, sends: nat, i: nat, command: Command, k: nat)
    returns (run': seq<Action>, nodes': seq<Node>)
    requires At(n, run, nodes, sends) && Spread(nodes, n, i, command, k) && k < n && k != i
    ensures At(n, run', nodes', sends + 1) && Spread(nodes', n, i, command, k + 1)
  {
    var s := OneStored(nodes, n, i, command, k);
    SpreadStep(nodes, n, i, command, k, Node(s, NoElection, []));
    run' := Tell(n, run, nodes, sends, i, k);
    nodes' := nodes[k := Node(s, NoElection, [])][i := Node(Spreader(n, i, command, k + 1), NoElection, [])];
  }

  lemma SpreadSelf(nodes: seq<Node>, n: nat, i: nat, command: Command)
    requires Spread(nodes, n, i, command, i)
    ensures Spread(nodes, n, i, command, i + 1)
  {
    var s, t := Spreader(n, i, command, i), Spreader(n, i, command, i + 1);
    assert s.nextIndex == t.nextIndex && s.matchIndex == t.matchIndex;
  }

  lemma {:induction false} SpreadAll(n: nat, run: seq<Action>, nodes: seq<Node>, sends: nat, i: nat, command: Command,
                                     k: nat)
    returns (run': seq<Action>, nodes': seq<Node>, sends': nat)
    requires At(n, run, nodes, sends) && Spread(nodes, n, i, command, k) && k <= n
    ensures At(n, run', nodes', sends') && Spread(nodes', n, i, command, n)
    decreases n - k
  {
    if k == n {
      run', nodes', sends' := run, nodes, sends;
    } else if k == i {
      SpreadSelf(nodes, n, i, command);
      run', nodes', sends' := SpreadAll(n, run, nodes, sends, i, command, k + 1);
    } else {
      var r1, next := SpreadOne(n, run, nodes, sends, i, command, k);
      run', nodes', sends' := SpreadAll(n, r1, next, sends + 1, i, command, k + 1);
    }
  }

  lemma SubmitSpreads(n: nat, nodes: seq<Node>, i: nat, command: Command)
    requires Led(nodes, n, i)
    ensures Spread(nodes[i := nodes[i].(raft := Propose(nodes[i].raft, command))], n, i, command, 0)
  {
    var s, t := Propose(LeaderNode(n, i).raft, command), Spreader(n, i, command, 0);
    assert BeginElection(Boot(), i).LogLen() == 1;
    assert s.nextIndex == t.nextIndex && s.matchIndex == t.matchIndex && s.log == t.log;
  }

  /// ## Commit and delivery

  lemma AllReached(n: nat, xs: seq<int>)
    requires n >= 1 && xs == seq(n, _ => 1)
    ensures Median(xs) == 1
  {
    MedianIsQuorumIndex(xs, 1);
    MedianIsQuorumIndex(xs, 2);
    assert AtLeast(xs, 2) == {};
    BelowCounts(xs, n);
  }

  lemma {:induction false} BelowCounts(xs: seq<int>, k: nat)
    requires k <= |xs| && forall j :: 0 <= j < |xs| ==> xs[j] == 1
    ensures |AtLeast(xs, 1)| >= k
  {
    var below := Others(|xs|, k);
    SubsetSize(below, AtLeast(xs, 1));
  }

  lemma {:induction false} SubsetSize(a: set<nat>, b: set<nat>)
    requires a <= b
    ensures |a| <= |b|
  {
    assert b == a + (b - a);
    assert |b| == |a| + |b - a|;
  }

  function Delivery(command: Command): seq<ApplyMsg> { [ApplyCommand(1, command)] }

  // The leader once it has committed and delivered the command.
  function Deliverer(n: nat, i: nat, command: Command): Node {
    Node(Spreader(n, i, command, n).(commitIndex := 1, lastApplied := 1), NoElection, Delivery(command))
  }

  lemma LeaderCommits(n: nat, i: nat, command: Command)
    requires i < n
    ensures var s := Spreader(n, i, command, n); var s' := s.(commitIndex := 1);
            && i < |s.matchIndex| && Median(Matched(s, i)) == 1 && s.Holds(1)
            && AdvanceCommit(s, i) == s'
            && CanDeliver(s') && Deliver(s') == (s'.(lastApplied := 1), ApplyCommand(1, command))
  {
    var s := Spreader(n, i, command, n);
    assert Matched(s, i) == seq(n, _ => 1);
    AllReached(n, Matched(s, i));
  }

  lemma Commits(n: nat, run: seq<Action>, nodes: seq<Node>, sends: nat, i: nat, s: Server) returns (run': seq<Action>)
    requires At(n, run, nodes, sends) && i < |nodes|
    requires nodes[i].raft.role == Leader && i < |nodes[i].raft.matchIndex|
    requires nodes[i].raft.Holds(Median(Matched(nodes[i].raft, i))) && AdvanceCommit(nodes[i].raft, i) == s
    ensures At(n, run', nodes[i := nodes[i].(raft := s)], sends)
  {
    run' := Plain(n, run, nodes, sends, Commit(i));
  }

  lemma Applies(n: nat, run: seq<Action>, nodes: seq<Node>, sends: nat, i: nat) returns (run': seq<Action>)
    requires At(n, run, nodes, sends) && i < |nodes| && CanDeliver(nodes[i].raft)
    ensures var (s, msg) := Deliver(nodes[i].raft);
            At(n, run', nodes[i := nodes[i].(raft := s, delivered := nodes[i].delivered + [msg])], sends)
  {
    run' := Plain(n, run, nodes, sends, Apply(i));
  }

  // A leader commits, and delivers its first command.
  lemma CommitThenApply(n: nat, run: seq<Action>, nodes: seq<Node>, sends: nat, i: nat,
                        s: Server, t: Server, msg: ApplyMsg)
    returns (run': seq<Action>)
    requires At(n, run, nodes, sends) && i < |nodes| && nodes[i].delivered == []
    requires nodes[i].raft.role == Leader && i < |nodes[i].raft.matchIndex|
    requires nodes[i].raft.Holds(Median(Matched(nodes[i].raft, i))) && AdvanceCommit(nodes[i].raft, i) == s
    requires CanDeliver(s) && Deliver(s) == (t, msg)
    ensures At(n, run', nodes[i := nodes[i].(raft := t, delivered := [msg])], sends)
  {
    var committed := nodes[i := nodes[i].(raft := s)];
    var r1 := Commits(n, run, nodes, sends, i, s);
    run' := Applies(n, r1, committed, sends, i);
    assert [] + [msg] == [msg];
    var done := nodes[i].(raft := t, delivered := [msg]);
    assert committed[i := done] == nodes[i := done];
  }

  lemma LeaderDelivers(n: nat, run: seq<Action>, nodes: seq<Node>, sends: nat, i: nat, command: Command)
    returns (run': seq<Action>)
    requires At(n, run, nodes, sends) && Spread(nodes, n, i, command, n)
    ensures At(n, run', nodes[i := Deliverer(n, i, command)], sends)
  {
    LeaderCommits(n, i, command);
    var s := nodes[i].raft.(commitIndex := 1);
    run' := CommitThenApply(n, run, nodes, sends, i, s, s.(lastApplied := 1), ApplyCommand(1, command));
  }

  // The peers below k have delivered the command as well.
  ghost predicate Delivering(nodes: seq<Node>, n: nat, i: nat, command: Command, k: nat) {
    && |nodes| == n && i < n && nodes[i] == Deliverer(n, i, command)
    && (forall j :: 0 <= j < n && j < k ==> nodes[j].delivered == Delivery(command))
    && (forall j :: 0 <= j < n && j != i && j >= k ==> Stores(nodes[j], command))
  }

  lemma HeartbeatCommits(n: nat, i: nat, command: Command, node: Node, k: nat)
    requires Stores(node, command) && k < n && k != i
    ensures var leader := Deliverer(n, i, command).raft; var args := AppendArgs(1, i, 1, 1, [], 1);
            && k < |leader.nextIndex| == |leader.matchIndex| && leader.nextIndex[k] == 2
            && NextRequest(leader, i, k) == args
            && AnswerAppend(node.raft, args) == (node.raft.(commitIndex := 1), AppendReply(1, true, 0, 0, 0))
            && UseAppendReply(leader, k, args, AppendReply(1, true, 0, 0, 0)) == leader
  {
    var leader := Deliverer(n, i, command).raft;
    assert leader.nextIndex[k := 2] == leader.nextIndex && leader.matchIndex[k := 1] == leader.matchIndex;
  }

  // A peer is told of the commit, and delivers its first command; the leader learns nothing new.
  lemma TellThenApply(n: nat, run: seq<Action>, nodes: seq<Node>, sends: nat, i: nat, k: nat,
                      s: Server, reply: AppendReply, t: Server, msg: ApplyMsg)
    returns (run': seq<Action>)
    requires At(n, run, nodes, sends) && CanAsk(nodes, i, k) && |nodes[i].raft.log| >= 1
    requires nodes[k].raft.Valid() && nodes[k].raft.snapshotIndex < nodes[i].raft.nextIndex[k]
    requires AnswerAppend(nodes[k].raft, NextRequest(nodes[i].raft, i, k)) == (s, reply)
    requires UseAppendReply(nodes[i].raft, k, NextRequest(nodes[i].raft, i, k), reply) == nodes[i].raft
    requires CanDeliver(s) && Deliver(s) == (t, msg) && nodes[k].delivered == []
    ensures At(n, run', nodes[k := nodes[k].(raft := t, delivered := [msg])], sends + 1)
  {
    ToldIs(nodes, i, k, s, reply, nodes[i].raft);
    var told := nodes[k := nodes[k].(raft := s)];
    assert Told(nodes, i, k) == told;
    var r1 := Tell(n, run, nodes, sends, i, k);
    run' := Applies(n, r1, told, sends + 1, k);
    assert [] + [msg] == [msg];
    var done := nodes[k].(raft := t, delivered := [msg]);
    assert told[k := done] == nodes[k := done];
  }

  lemma DeliversNext(nodes: seq<Node>, n: nat, i: nat, command: Command, k: nat, node: Node)
    requires Delivering(nodes, n, i, command, k) && k < n && k != i && node.delivered == Delivery(command)
    ensures Delivering(nodes[k := node], n, i, command, k + 1)
  {
  }

  lemma PeerDelivers(n: nat, run: seq<Action>, nodes: seq<Node>, sends: nat, i: nat, command: Command, k: nat)
    returns (run': seq<Action>, nodes': seq<Node>)
    requires At(n, run, nodes, sends) && Delivering(nodes, n, i, command, k) && k < n && k != i
    ensures At(n, run', nodes', sends + 1) && Delivering(nodes', n, i, command, k + 1)
  {
    HeartbeatCommits(n, i, command, nodes[k], k);
    var s, msg := nodes[k].raft.(commitIndex := 1), ApplyCommand(1, command);
    var node := nodes[k].(raft := s.(lastApplied := 1), delivered := [msg]);
    run' := TellThenApply(n, run, nodes, sends, i, k, s, AppendReply(1, true, 0, 0, 0), s.(lastApplied := 1), msg);
    nodes' := nodes[k := node];
    DeliversNext(nodes, n, i, command, k, node);
  }

  lemma {:induction false} AllDeliver(n: nat, run: seq<Action>, nodes: seq<Node>, sends: nat, i: nat, command: Command,
                                      k: nat)
    returns (run': seq<Action>, nodes': seq<Node>, sends': nat)
    requires At(n, run, nodes, sends) && Delivering(nodes, n, i, command, k) && k <= n
    ensures At(n, run', nodes', sends') && Delivering(nodes', n, i, command, n)
    decreases n - k
  {
    if k == n {
      run', nodes', sends' := run, nodes, sends;
    } else if k == i {
      run', nodes', sends' := AllDeliver(n, run, nodes, sends, i, command, k + 1);
    } else {
      var r1, next := PeerDelivers(n, run, nodes, sends, i, command, k);
      run', nodes', sends' := AllDeliver(n, r1, next, sends + 1, i, command, k + 1);
    }
  }

  // For every n >= 2, every peer i and every command there is a legal run, in send order throughout,
  // that ends with i leading and every one of the n peers having delivered the command.
  lemma CommandReachesAll(n: nat, i: nat, command: Command) returns (run: seq<Action>)
    requires n >= 2 && i < n
    ensures Legal(n, run) && LegalOrderly(n, run)
    ensures var nodes := Exec(n, run).c.nodes;
            && |nodes| == n && nodes[i].raft.role == Leader
            && forall j :: 0 <= j < n ==> nodes[j].delivered == [ApplyCommand(1, command)]
  {
    var r1, led := CanLead(n, i);
    var r2 := Plain(n, r1, led, 0, Submit(i, command));
    SubmitSpreads(n, led, i, command);
    var proposed := led[i := led[i].(raft := Propose(led[i].raft, command))];
    var r3, stored, sends := SpreadAll(n, r2, proposed, 0, i, command, 0);
    var r4 := LeaderDelivers(n, r3, stored, sends, i, command);
    var nodes, sends';
    run, nodes, sends' := AllDeliver(n, r4, stored[i := Deliverer(n, i, command)], sends, i, command, 0);
  }
}
