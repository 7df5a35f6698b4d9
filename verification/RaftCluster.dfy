/** A cluster of Raft peers and the network between them, as a transition system.

    The network is a set of messages that only grows.  A message may be handled at any later time,
    any number of times, or never, so loss, duplication, delay and reordering need no steps of
    their own.  A response carries the request it answers, as an RPC does.

    World pairs the cluster with a history of who voted, led and stored what.  No step reads the
    history; the proofs do, and so do Guarded and Orderly.  Guarded names the two assumptions about
    AppendEntries that the log properties need and election safety does not; Orderly is the plainer
    one, send order, that implies them.
 */
module RaftCluster {
  import opened RaftTypes

  // The ElectionWorker's locals while it collects replies.
  datatype Election = NoElection | Election(term: nat, answered: set<nat>, granted: set<nat>)

  datatype Node = Node(raft: Server, election: Election, delivered: seq<ApplyMsg>)

  // An AppendEntries call also carries its place in the order of all sends.  No peer reads it.
  datatype Message =
    | VoteRequest(to: nat, vote: VoteArgs)
    | VoteResponse(to: nat, vote: VoteArgs, voteReply: VoteReply)
    | AppendRequest(sendNo: nat, to: nat, append: AppendArgs)
    | AppendResponse(sendNo: nat, to: nat, append: AppendArgs, appendReply: AppendReply)

  datatype Cluster = Cluster(nodes: seq<Node>, net: set<Message>, sends: nat)

  datatype Action =
    | StartElection(i: nat)
    | RequestVote(i: nat, peer: nat)
    | HandleVote(m: Message)
    | HandleVoteReply(m: Message)
    | GiveUp(i: nat)
    | Submit(i: nat, command: Command)
    | Replicate(i: nat, peer: nat)
    | HandleAppend(m: Message)
    | HandleAppendReply(m: Message)
    | Commit(i: nat)
    | Apply(i: nat)
    | Crash(i: nat)

  predicate Enabled(c: Cluster, a: Action) {
    var n := |c.nodes|;
    match a
    case StartElection(i) => i < n && c.nodes[i].raft.role != Leader && c.nodes[i].election.NoElection?
    case RequestVote(i, peer) =>
      i < n && peer < n && peer != i && c.nodes[i].raft.role == Candidate && |c.nodes[i].raft.log| >= 1
    case HandleVote(m) =>
      m in c.net && m.VoteRequest? && m.to < n && |c.nodes[m.to].raft.log| >= 1
    case HandleVoteReply(m) =>
      && m in c.net && m.VoteResponse? && m.vote.candidateId < n
      && (var e := c.nodes[m.vote.candidateId].election;
          e.Election? && e.term == m.vote.term && m.to !in e.answered)
    case GiveUp(i) => i < n && c.nodes[i].election.Election?
    case Submit(i, command) => i < n && c.nodes[i].raft.role == Leader
    case Replicate(i, peer) =>
      && i < n && peer < n && peer != i
      && (var s := c.nodes[i].raft;
          && s.role == Leader && peer < |s.nextIndex|
          && s.snapshotIndex < s.nextIndex[peer] && s.snapshotIndex < s.LogLen())
    case HandleAppend(m) =>
      && m in c.net && m.AppendRequest? && m.to < n
      && c.nodes[m.to].raft.Valid() && c.nodes[m.to].raft.snapshotIndex <= m.append.prevLogIndex
    case HandleAppendReply(m) =>
      && m in c.net && m.AppendResponse? && m.append.leaderId < n
      && (var s := c.nodes[m.append.leaderId].raft;
          |s.log| >= 1 && m.to < |s.nextIndex| == |s.matchIndex|)
    case Commit(i) =>
      && i < n
      && (var s := c.nodes[i].raft;
          && s.role == Leader && i < |s.matchIndex|
          && (Median(Matched(s, i)) > s.commitIndex ==> s.Holds(Median(Matched(s, i)))))
    case Apply(i) => i < n && CanDeliver(c.nodes[i].raft)
    case Crash(i) => i < n && |c.nodes[i].raft.log| >= 1
  }

  function SetRaft(c: Cluster, i: nat, s: Server): Cluster
    requires i < |c.nodes|
  {
    c.(nodes := c.nodes[i := c.nodes[i].(raft := s)])
  }

  function Send(c: Cluster, m: Message): Cluster {
    c.(net := c.net + {m})
  }

  function Counted(c: Cluster, m: Message): (Server, Tally)
    requires Enabled(c, HandleVoteReply(m))
  {
    var node := c.nodes[m.vote.candidateId];
    CountVote(node.raft, m.vote.candidateId, |c.nodes|, node.election.term, 1 + |node.election.granted|, m.voteReply)
  }

  function Do(c: Cluster, a: Action): Cluster
    requires Enabled(c, a)
  {
    match a
    case StartElection(i) =>
      var s := BeginElection(c.nodes[i].raft, i);
      c.(nodes := c.nodes[i := c.nodes[i].(raft := s, election := Election(s.currentTerm, {}, {}))])
    case RequestVote(i, peer) =>
      Send(c, VoteRequest(peer, AskVote(c.nodes[i].raft, i)))
    case HandleVote(m) =>
      var (s, reply) := AnswerVote(c.nodes[m.to].raft, m.vote);
      Send(SetRaft(c, m.to, s), VoteResponse(m.to, m.vote, reply))
    case HandleVoteReply(m) =>
      var i := m.vote.candidateId;
      var e := c.nodes[i].election;
      var (s, tally) := Counted(c, m);
      var granted := if m.voteReply.voteGranted then e.granted + {m.to} else e.granted;
      var next := if tally.Over? then NoElection else Election(e.term, e.answered + {m.to}, granted);
      c.(nodes := c.nodes[i := c.nodes[i].(raft := s, election := next)])
    case GiveUp(i) =>
      c.(nodes := c.nodes[i := c.nodes[i].(raft := c.nodes[i].raft.(role := Follower), election := NoElection)])
    case Submit(i, command) =>
      SetRaft(c, i, Propose(c.nodes[i].raft, command))
    case Replicate(i, peer) =>
      var s := Clip(c.nodes[i].raft, peer);
      Send(SetRaft(c, i, s), AppendRequest(c.sends, peer, NextRequest(s, i, peer))).(sends := c.sends + 1)
    case HandleAppend(m) =>
      var (s, reply) := AnswerAppend(c.nodes[m.to].raft, m.append);
      Send(SetRaft(c, m.to, s), AppendResponse(m.sendNo, m.to, m.append, reply))
    case HandleAppendReply(m) =>
      SetRaft(c, m.append.leaderId, UseAppendReply(c.nodes[m.append.leaderId].raft, m.to, m.append, m.appendReply))
    case Commit(i) =>
      SetRaft(c, i, AdvanceCommit(c.nodes[i].raft, i))
    case Apply(i) =>
      var (s, msg) := Deliver(c.nodes[i].raft);
      c.(nodes := c.nodes[i := c.nodes[i].(raft := s, delivered := c.nodes[i].delivered + [msg])])
    case Crash(i) =>
      c.(nodes := c.nodes[i := Node(Restart(Persist(c.nodes[i].raft)), NoElection, [])])
  }

  function Start(n: nat): Cluster {
    Cluster(seq(n, i => Node(Boot(), NoElection, [])), {}, 0)
  }

  /// ## History

  // One term's leader: who it was, the votes it counted, its log when it took office and its log
  // since.
  datatype Reign = Reign(leader: nat, quorum: set<nat>, initial: seq<Entry>, log: seq<Entry>)

  // Keys of the first three maps are (peer, term).
  datatype History = History(
    votes: map<(nat, nat), nat>,            // the candidate the peer voted for
    candidates: map<(nat, nat), seq<Entry>>, // the peer's log when it stood for election
    acks: map<(nat, nat), nat>,             // the last index at which it ever matched that leader
    handled: map<(nat, nat), nat>,          // the newest AppendEntries of that term it handled
    reigns: map<nat, Reign>)

  datatype World = World(c: Cluster, h: History)

  predicate Wins(c: Cluster, m: Message)
    requires Enabled(c, HandleVoteReply(m))
  {
    var node := c.nodes[m.vote.candidateId];
    && node.raft.currentTerm == node.election.term
    && m.voteReply.term <= node.raft.currentTerm
    && m.voteReply.voteGranted
    && |node.election.granted| + 2 >= |c.nodes| / 2 + 1
  }

  function Ack(h: History, peer: nat, term: nat): nat {
    if (peer, term) in h.acks then h.acks[(peer, term)] else 0
  }

  function Handled(h: History, peer: nat, term: nat): nat {
    if (peer, term) in h.handled then h.handled[(peer, term)] else 0
  }

  function Record(c: Cluster, h: History, a: Action): History
    requires Enabled(c, a)
  {
    match a
    case StartElection(i) =>
      var term := c.nodes[i].raft.currentTerm + 1;
      h.(votes := h.votes[(i, term) := i], candidates := h.candidates[(i, term) := c.nodes[i].raft.log])
    case HandleVote(m) =>
      if AnswerVote(c.nodes[m.to].raft, m.vote).1.voteGranted
      then h.(votes := h.votes[(m.to, m.vote.term) := m.vote.candidateId]) else h
    case HandleVoteReply(m) =>
      if Wins(c, m) then
        var i := m.vote.candidateId;
        var log := c.nodes[i].raft.log;
        h.(reigns := h.reigns[m.vote.term := Reign(i, c.nodes[i].election.granted + {m.to, i}, log, log)],
           acks := h.acks[(i, m.vote.term) := if |log| == 0 then 0 else |log| - 1])
      else h
    case Submit(i, command) =>
      var s := c.nodes[i].raft;
      if s.currentTerm in h.reigns then
        h.(reigns := h.reigns[s.currentTerm := h.reigns[s.currentTerm].(log := Propose(s, command).log)],
           acks := h.acks[(i, s.currentTerm) := |s.log|])
      else h
    case HandleAppend(m) =>
      var seen := h.(handled := h.handled[(m.to, m.append.term) := m.sendNo]);
      if AnswerAppend(c.nodes[m.to].raft, m.append).1.success then
        var ack := if Ack(h, m.to, m.append.term) > m.append.End() then Ack(h, m.to, m.append.term) else m.append.End();
        seen.(acks := h.acks[(m.to, m.append.term) := ack])
      else seen
    case _ => h
  }

  function Step(w: World, a: Action): World
    requires Enabled(w.c, a)
  {
    World(Do(w.c, a), Record(w.c, w.h, a))
  }

  // A request that is accepted brings nothing, brings only what is committed already, or reaches
  // at least as far as its receiver has ever acknowledged to that leader.
  predicate Reaches(w: World, m: Message)
    requires Enabled(w.c, HandleAppend(m))
  {
    var s := w.c.nodes[m.to].raft;
    AnswerAppend(s, m.append).1.success ==>
      m.append.entries == [] || AlreadyCommitted(s, m.append) || Ack(w.h, m.to, m.append.term) <= m.append.End()
  }

  // A rejection that a leader uses, of whatever term, puts nextIndex no further than the leader's
  // first guess or just past what the peer has acknowledged to it.
  predicate ClaimsNoMore(w: World, m: Message)
    requires Enabled(w.c, HandleAppendReply(m))
  {
    var s := w.c.nodes[m.append.leaderId].raft;
    s.role == Leader && s.currentTerm in w.h.reigns && !m.appendReply.success && m.appendReply.term <= m.append.term ==>
      BackUp(s, m.appendReply) <= Max(|w.h.reigns[s.currentTerm].initial|, Ack(w.h, m.to, s.currentTerm) + 1)
  }

  // The two assumptions: each guards one branch of the source.
  predicate Guarded(w: World, a: Action)
    requires Enabled(w.c, a)
  {
    match a
    case HandleAppend(m) => Reaches(w, m)
    case HandleAppendReply(m) => ClaimsNoMore(w, m)
    case _ => true
  }

  // What the leader itself can tell: the rejection is of its present term, or does not raise
  // nextIndex.
  predicate Cautious(w: World, m: Message)
    requires Enabled(w.c, HandleAppendReply(m))
  {
    var s := w.c.nodes[m.append.leaderId].raft;
    s.role == Leader && !m.appendReply.success && m.appendReply.term <= m.append.term ==>
      s.currentTerm == m.append.term || BackUp(s, m.appendReply) <= s.nextIndex[m.to]
  }

  predicate Tested(w: World, a: Action)
    requires Enabled(w.c, a)
  {
    match a
    case HandleAppend(m) => Reaches(w, m)
    case HandleAppendReply(m) => Cautious(w, m)
    case _ => true
  }

  // Send order.  A peer handles the AppendEntries of one term in the order they were sent (some
  // may be lost).  A leader uses an AppendEntries reply only while it still leads the term in
  // which it sent the request.
  predicate Orderly(w: World, a: Action)
    requires Enabled(w.c, a)
  {
    match a
    case HandleAppend(m) => Handled(w.h, m.to, m.append.term) <= m.sendNo
    case HandleAppendReply(m) =>
      var s := w.c.nodes[m.append.leaderId].raft;
      s.role == Leader && s.currentTerm == m.append.term
    case _ => true
  }

  /// ## Runs

  predicate Legal(n: nat, run: seq<Action>)
    decreases |run|, 0
  {
    run != [] ==> Legal(n, run[..|run| - 1]) && Enabled(Exec(n, run[..|run| - 1]).c, run[|run| - 1])
  }

  function Exec(n: nat, run: seq<Action>): World
    requires Legal(n, run)
    decreases |run|, 1
  {
    if run == [] then World(Start(n), History(map[], map[], map[], map[], map[]))
    else Step(Exec(n, run[..|run| - 1]), run[|run| - 1])
  }

  // A legal run in which every step respects the two assumptions.
  predicate LegalGuarded(n: nat, run: seq<Action>)
    decreases |run|
  {
    && Legal(n, run)
    && (run != [] ==> LegalGuarded(n, run[..|run| - 1]) && Guarded(Exec(n, run[..|run| - 1]), run[|run| - 1]))
  }

  predicate LegalTested(n: nat, run: seq<Action>)
    decreases |run|
  {
    && Legal(n, run)
    && (run != [] ==> LegalTested(n, run[..|run| - 1]) && Tested(Exec(n, run[..|run| - 1]), run[|run| - 1]))
  }

  predicate LegalOrderly(n: nat, run: seq<Action>)
    decreases |run|
  {
    && Legal(n, run)
    && (run != [] ==> LegalOrderly(n, run[..|run| - 1]) && Orderly(Exec(n, run[..|run| - 1]), run[|run| - 1]))
  }

  lemma {:induction false} PrefixLegal(n: nat, run: seq<Action>, p: nat)
    requires Legal(n, run) && p <= |run|
    ensures Legal(n, run[..p])
    decreases |run|
  {
    if p == |run| {
      assert run[..p] == run;
    } else {
      PrefixLegal(n, run[..|run| - 1], p);
      assert run[..|run| - 1][..p] == run[..p];
    }
  }

  lemma {:induction false} PrefixGuarded(n: nat, run: seq<Action>, p: nat)
    requires LegalGuarded(n, run) && p <= |run|
    ensures LegalGuarded(n, run[..p])
    decreases |run|
  {
    if p == |run| {
      assert run[..p] == run;
    } else {
      PrefixGuarded(n, run[..|run| - 1], p);
      assert run[..|run| - 1][..p] == run[..p];
    }
  }

  /// ## Majorities

  lemma {:induction false} BoundedSize(s: set<nat>, n: nat)
    requires forall x :: x in s ==> x < n
    ensures |s| <= n
  {
    if n == 0 {
      assert s == {};
    } else {
      BoundedSize(s - {n - 1}, n - 1);
    }
  }

  // Two sets of peers that together count more than n members share one.
  lemma Overlap(a: set<nat>, b: set<nat>, n: nat) returns (x: nat)
    requires forall y :: y in a + b ==> y < n
    requires |a| + |b| > n
    ensures x in a && x in b
  {
    BoundedSize(a + b, n);
    assert |a + b| == |a| + |b| - |a * b|;
    x :| x in a * b;
  }
}
