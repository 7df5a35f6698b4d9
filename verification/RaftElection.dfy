/** Election safety on every legal run: messages may be lost, duplicated and reordered without
    restriction, peers may crash and restart at any point, and replies may be used in any term.

    A peer that refuses a vote for a newer term keeps the votedFor of an older one.  The history
    of votes shows why this is harmless: votedFor is the peer's vote in its current term whenever
    it has cast one in that term, and otherwise it only keeps the peer from voting for others.
 */
module RaftElection {
  import opened RaftTypes
  import opened RaftCluster

  ghost predicate NodeShape(n: nat, s: Server) {
    && s.Valid()
    && s.snapshotIndex == 0 && s.snapshotTerm == 0 && s.snapshot == NoSnapshot
    && s.lastApplied <= s.commitIndex
    && |s.nextIndex| == |s.matchIndex|
    && (|s.nextIndex| == 0 || |s.nextIndex| == n)
    && (s.role == Leader ==> |s.nextIndex| == n)
  }

  ghost predicate MessageShape(n: nat, m: Message) {
    && m.to < n
    && (m.VoteRequest? || m.VoteResponse? ==> m.vote.candidateId < n && m.vote.candidateId != m.to)
    && (m.AppendRequest? || m.AppendResponse? ==> m.append.leaderId < n && m.append.leaderId != m.to)
  }

  ghost predicate Shape(c: Cluster) {
    && |c.nodes| >= 1
    && (forall i :: 0 <= i < |c.nodes| ==> NodeShape(|c.nodes|, c.nodes[i].raft))
    && (forall m {:trigger MessageShape(|c.nodes|, m)} :: m in c.net ==> MessageShape(|c.nodes|, m))
  }

  // Whoever voted in a term has reached it, and votedFor remembers the vote while in that term.
  ghost predicate VotesKept(c: Cluster, h: History) {
    forall v, term :: (v, term) in h.votes ==>
      && v < |c.nodes|
      && term <= c.nodes[v].raft.currentTerm
      && (term == c.nodes[v].raft.currentTerm ==> c.nodes[v].raft.votedFor == h.votes[(v, term)])
  }

  ghost predicate Voted(h: History, v: nat, term: nat, candidate: nat) {
    (v, term) in h.votes && h.votes[(v, term)] == candidate
  }

  ghost predicate GrantsRecorded(c: Cluster, h: History) {
    forall m :: m in c.net && m.VoteResponse? && m.voteReply.voteGranted ==>
      Voted(h, m.to, m.vote.term, m.vote.candidateId)
  }

  // The votes an election has counted are votes for its candidate, who has not led the term.
  ghost predicate ElectionSound(n: nat, h: History, i: nat, node: Node) {
    node.election.Election? ==>
      var e := node.election;
      && e.term <= node.raft.currentTerm
      && node.raft.role != Leader
      && Voted(h, i, e.term, i)
      && e.granted <= e.answered
      && (forall v :: v in e.granted ==> v < n && v != i && Voted(h, v, e.term, i))
      && (e.term in h.reigns ==> h.reigns[e.term].leader != i)
  }

  ghost predicate ElectionsSound(c: Cluster, h: History) {
    forall i {:trigger ElectionSound(|c.nodes|, h, i, c.nodes[i])} :: 0 <= i < |c.nodes| ==>
      ElectionSound(|c.nodes|, h, i, c.nodes[i])
  }

  // Every leader was elected by a majority of the votes of its term.
  ghost predicate ReignElected(c: Cluster, h: History, term: nat)
    requires term in h.reigns
  {
    var r := h.reigns[term];
    && r.leader < |c.nodes|
    && term <= c.nodes[r.leader].raft.currentTerm
    && |r.quorum| >= |c.nodes| / 2 + 1
    && (forall v :: v in r.quorum ==> v < |c.nodes| && Voted(h, v, term, r.leader))
  }

  ghost predicate ReignsElected(c: Cluster, h: History) {
    forall term {:trigger ReignElected(c, h, term)} :: term in h.reigns ==> ReignElected(c, h, term)
  }

  ghost predicate LeadersReign(c: Cluster, h: History) {
    forall i :: 0 <= i < |c.nodes| && c.nodes[i].raft.role == Leader ==>
      c.nodes[i].raft.currentTerm in h.reigns && h.reigns[c.nodes[i].raft.currentTerm].leader == i
  }

  ghost predicate ElectionInv(w: World) {
    && Shape(w.c)
    && VotesKept(w.c, w.h)
    && GrantsRecorded(w.c, w.h)
    && ElectionsSound(w.c, w.h)
    && ReignsElected(w.c, w.h)
    && LeadersReign(w.c, w.h)
  }

  /// ## The shape of peers and messages

  lemma AppendShape(n: nat, s: Server, args: AppendArgs)
    requires NodeShape(n, s)
    ensures NodeShape(n, AnswerAppend(s, args).0)
    ensures AnswerAppend(s, args).0.currentTerm >= s.currentTerm
    ensures AnswerAppend(s, args).0.currentTerm == s.currentTerm ==> AnswerAppend(s, args).0.votedFor == s.votedFor
    ensures AnswerAppend(s, args).0.role == Leader ==> AnswerAppend(s, args).0 == s
  {
  }

  lemma CountShape(n: nat, s: Server, me: nat, electionTerm: nat, voteCount: nat, reply: VoteReply)
    requires NodeShape(n, s)
    ensures NodeShape(n, CountVote(s, me, n, electionTerm, voteCount, reply).0)
  {
  }

  lemma ReplyShape(n: nat, s: Server, peer: nat, args: AppendArgs, reply: AppendReply)
    requires NodeShape(n, s) && peer < |s.nextIndex|
    ensures NodeShape(n, UseAppendReply(s, peer, args, reply))
  {
  }

  lemma HandlerShaped(c: Cluster, a: Action, i: nat)
    requires Shape(c) && Enabled(c, a) && i < |c.nodes|
    requires a.HandleAppend? || a.HandleAppendReply? || a.HandleVoteReply?
    ensures |Do(c, a).nodes| == |c.nodes| && NodeShape(|c.nodes|, Do(c, a).nodes[i].raft)
  {
    assert NodeShape(|c.nodes|, c.nodes[i].raft);
    match a
    case HandleAppend(m) => AppendShape(|c.nodes|, c.nodes[m.to].raft, m.append);
    case HandleAppendReply(m) => ReplyShape(|c.nodes|, c.nodes[m.append.leaderId].raft, m.to, m.append, m.appendReply);
    case HandleVoteReply(m) =>
      var node := c.nodes[m.vote.candidateId];
      CountShape(|c.nodes|, node.raft, m.vote.candidateId,
                 node.election.term, 1 + |node.election.granted|, m.voteReply);
  }

  lemma SenderShaped(c: Cluster, a: Action, i: nat)
    requires Shape(c) && Enabled(c, a) && i < |c.nodes|
    requires a.RequestVote? || a.HandleVote? || a.Replicate? || a.Submit?
    ensures |Do(c, a).nodes| == |c.nodes| && NodeShape(|c.nodes|, Do(c, a).nodes[i].raft)
  {
    assert NodeShape(|c.nodes|, c.nodes[i].raft);
  }

  lemma LonelyShaped(c: Cluster, a: Action, i: nat)
    requires Shape(c) && Enabled(c, a) && i < |c.nodes|
    requires a.StartElection? || a.GiveUp? || a.Commit? || a.Apply? || a.Crash?
    ensures |Do(c, a).nodes| == |c.nodes| && NodeShape(|c.nodes|, Do(c, a).nodes[i].raft)
  {
    assert NodeShape(|c.nodes|, c.nodes[i].raft);
  }

  lemma NodesShaped(c: Cluster, a: Action, i: nat)
    requires Shape(c) && Enabled(c, a) && i < |c.nodes|
    ensures |Do(c, a).nodes| == |c.nodes|
    ensures NodeShape(|c.nodes|, Do(c, a).nodes[i].raft)
  {
    if a.HandleAppend? || a.HandleAppendReply? || a.HandleVoteReply? {
      HandlerShaped(c, a, i);
    } else if a.RequestVote? || a.HandleVote? || a.Replicate? || a.Submit? {
      SenderShaped(c, a, i);
    } else {
      LonelyShaped(c, a, i);
    }
  }

  lemma MessagesShaped(c: Cluster, a: Action, m: Message)
    requires Shape(c) && Enabled(c, a) && m in Do(c, a).net
    ensures MessageShape(|c.nodes|, m)
  {
    if m !in c.net && !a.RequestVote? && !a.Replicate? {
      assert MessageShape(|c.nodes|, a.m);
    }
  }

  lemma ShapeStep(c: Cluster, a: Action)
    requires Shape(c) && Enabled(c, a)
    ensures Shape(Do(c, a))
  {
    var c' := Do(c, a);
    NodesShaped(c, a, 0);
    forall i | 0 <= i < |c'.nodes|
      ensures NodeShape(|c'.nodes|, c'.nodes[i].raft)
    {
      NodesShaped(c, a, i);
    }
    forall m | m in c'.net
      ensures MessageShape(|c'.nodes|, m)
    {
      MessagesShaped(c, a, m);
    }
  }

  // No step lets a peer forget a term or its vote in the current term.
  ghost predicate Kept(s: Server, s': Server) {
    && s.currentTerm <= s'.currentTerm
    && (s.currentTerm == s'.currentTerm && s.votedFor != -1 ==> s'.votedFor == s.votedFor)
  }

  lemma TermsKept(c: Cluster, a: Action)
    requires Shape(c) && Enabled(c, a)
    ensures |Do(c, a).nodes| == |c.nodes|
    ensures forall i :: 0 <= i < |c.nodes| ==> Kept(c.nodes[i].raft, Do(c, a).nodes[i].raft)
  {
    if a.HandleAppend? {
      AppendShape(|c.nodes|, c.nodes[a.m.to].raft, a.m.append);
    }
  }

  /// ## Votes

  // A vote, once cast, is never replaced by a vote for someone else.
  lemma VotesOnlyAdded(w: World, a: Action)
    requires ElectionInv(w) && Enabled(w.c, a)
    ensures forall v, term, x :: Voted(w.h, v, term, x) ==> Voted(Step(w, a).h, v, term, x)
  {
  }

  lemma VotesStep(w: World, a: Action)
    requires ElectionInv(w) && Enabled(w.c, a)
    ensures VotesKept(Do(w.c, a), Record(w.c, w.h, a))
  {
    TermsKept(w.c, a);
  }

  lemma GrantsStep(w: World, a: Action)
    requires ElectionInv(w) && Enabled(w.c, a)
    ensures GrantsRecorded(Do(w.c, a), Record(w.c, w.h, a))
  {
    VotesOnlyAdded(w, a);
  }

  /// ## Winners

  ghost function Quorum(c: Cluster, m: Message): set<nat>
    requires Enabled(c, HandleVoteReply(m))
  {
    c.nodes[m.vote.candidateId].election.granted + {m.to, m.vote.candidateId}
  }

  // A win rests on a majority of the votes of the term.
  lemma WinnerHasMajority(w: World, m: Message)
    requires ElectionInv(w) && Enabled(w.c, HandleVoteReply(m)) && Wins(w.c, m)
    ensures |Quorum(w.c, m)| >= |w.c.nodes| / 2 + 1
    ensures forall v :: v in Quorum(w.c, m) ==> v < |w.c.nodes| && Voted(w.h, v, m.vote.term, m.vote.candidateId)
  {
    var i := m.vote.candidateId;
    var granted := w.c.nodes[i].election.granted;
    assert ElectionSound(|w.c.nodes|, w.h, i, w.c.nodes[i]);
    assert MessageShape(|w.c.nodes|, m);
    assert m.to !in granted && i !in granted && m.to != i;
    assert Quorum(w.c, m) == granted + {m.to} + {i};
  }

  // That majority meets every other, so the term had no leader yet.
  lemma WinnerIsFirst(w: World, m: Message)
    requires ElectionInv(w) && Enabled(w.c, HandleVoteReply(m)) && Wins(w.c, m)
    ensures m.vote.term !in w.h.reigns
  {
    WinnerHasMajority(w, m);
    if m.vote.term in w.h.reigns {
      var i := m.vote.candidateId;
      assert ElectionSound(|w.c.nodes|, w.h, i, w.c.nodes[i]);
      assert ReignElected(w.c, w.h, m.vote.term);
      var v := Overlap(Quorum(w.c, m), w.h.reigns[m.vote.term].quorum, |w.c.nodes|);
    }
  }

  // Reigns are only ever added; leader, quorum and first log of a term are settled by the win.
  lemma ReignsOnlyAdded(w: World, a: Action)
    requires ElectionInv(w) && Enabled(w.c, a)
    ensures forall term :: term in w.h.reigns ==>
      && term in Step(w, a).h.reigns
      && Step(w, a).h.reigns[term].leader == w.h.reigns[term].leader
      && Step(w, a).h.reigns[term].quorum == w.h.reigns[term].quorum
      && Step(w, a).h.reigns[term].initial == w.h.reigns[term].initial
  {
    if a.HandleVoteReply? && Wins(w.c, a.m) {
      WinnerIsFirst(w, a.m);
    }
  }

  // An election that nobody touched is as sound as before, whatever the history gained.
  lemma ElectionStays(w: World, a: Action, i: nat)
    requires ElectionInv(w) && Enabled(w.c, a) && i < |w.c.nodes| == |Do(w.c, a).nodes|
    requires Do(w.c, a).nodes[i].election == w.c.nodes[i].election
    requires Do(w.c, a).nodes[i].raft.role == Leader ==> w.c.nodes[i].raft.role == Leader
    requires a.HandleVoteReply? && Wins(w.c, a.m) ==> a.m.vote.candidateId != i
    ensures ElectionSound(|w.c.nodes|, Record(w.c, w.h, a), i, Do(w.c, a).nodes[i])
  {
    TermsKept(w.c, a);
    VotesOnlyAdded(w, a);
    ReignsOnlyAdded(w, a);
    assert ElectionSound(|w.c.nodes|, w.h, i, w.c.nodes[i]);
  }

  lemma ElectionCounts(w: World, m: Message)
    requires ElectionInv(w) && Enabled(w.c, HandleVoteReply(m))
    ensures var i := m.vote.candidateId;
            ElectionSound(|w.c.nodes|, Record(w.c, w.h, HandleVoteReply(m)), i, Do(w.c, HandleVoteReply(m)).nodes[i])
  {
    var i := m.vote.candidateId;
    assert ElectionSound(|w.c.nodes|, w.h, i, w.c.nodes[i]) && MessageShape(|w.c.nodes|, m);
  }

  lemma ElectionStarts(w: World, i: nat)
    requires ElectionInv(w) && Enabled(w.c, StartElection(i))
    ensures ElectionSound(|w.c.nodes|, Record(w.c, w.h, StartElection(i)), i, Do(w.c, StartElection(i)).nodes[i])
  {
    var term := w.c.nodes[i].raft.currentTerm + 1;
    if term in w.h.reigns {
      assert ReignElected(w.c, w.h, term);
    }
  }

  lemma ElectionsStep(w: World, a: Action)
    requires ElectionInv(w) && Enabled(w.c, a)
    ensures ElectionsSound(Do(w.c, a), Record(w.c, w.h, a))
  {
    var w' := Step(w, a);
    TermsKept(w.c, a);
    forall i | 0 <= i < |w'.c.nodes|
      ensures ElectionSound(|w'.c.nodes|, w'.h, i, w'.c.nodes[i])
    {
      if a == StartElection(i) {
        ElectionStarts(w, i);
      } else if a.HandleVoteReply? && a.m.vote.candidateId == i {
        ElectionCounts(w, a.m);
      } else if w'.c.nodes[i].election.Election? {
        ElectionUntouched(w.c, a, i);
        ElectionStays(w, a, i);
      }
    }
  }

  lemma ElectionUntouched(c: Cluster, a: Action, i: nat)
    requires Shape(c) && Enabled(c, a) && i < |c.nodes| == |Do(c, a).nodes|
    requires a != StartElection(i) && !(a.HandleVoteReply? && a.m.vote.candidateId == i)
    requires Do(c, a).nodes[i].election.Election?
    ensures Do(c, a).nodes[i].election == c.nodes[i].election
    ensures Do(c, a).nodes[i].raft.role == Leader ==> c.nodes[i].raft.role == Leader
  {
    if a.HandleAppend? {
      AppendShape(|c.nodes|, c.nodes[a.m.to].raft, a.m.append);
    }
  }

  lemma ReignsStep(w: World, a: Action, term: nat)
    requires ElectionInv(w) && Enabled(w.c, a) && term in Record(w.c, w.h, a).reigns
    ensures ReignElected(Do(w.c, a), Record(w.c, w.h, a), term)
  {
    TermsKept(w.c, a);
    VotesOnlyAdded(w, a);
    if term in w.h.reigns {
      ReignsOnlyAdded(w, a);
      assert ReignElected(w.c, w.h, term);
    } else {
      WinnerHasMajority(w, a.m);
      assert Record(w.c, w.h, a).reigns[term].quorum == Quorum(w.c, a.m);
    }
  }

  // A leader after a step led the same term before it, or has just won.
  lemma LeaderLedOrWon(c: Cluster, a: Action, i: nat)
    requires Shape(c) && Enabled(c, a) && i < |c.nodes| == |Do(c, a).nodes|
    requires Do(c, a).nodes[i].raft.role == Leader
    ensures (c.nodes[i].raft.role == Leader && Do(c, a).nodes[i].raft.currentTerm == c.nodes[i].raft.currentTerm)
         || (a.HandleVoteReply? && i == a.m.vote.candidateId && Wins(c, a.m)
             && Do(c, a).nodes[i].raft.currentTerm == a.m.vote.term)
  {
    if a.HandleAppend? {
      AppendShape(|c.nodes|, c.nodes[a.m.to].raft, a.m.append);
    }
  }

  lemma LeadersStep(w: World, a: Action, i: nat)
    requires ElectionInv(w) && Enabled(w.c, a) && i < |w.c.nodes| == |Do(w.c, a).nodes|
    requires Do(w.c, a).nodes[i].raft.role == Leader
    ensures var term := Do(w.c, a).nodes[i].raft.currentTerm;
            term in Record(w.c, w.h, a).reigns && Record(w.c, w.h, a).reigns[term].leader == i
  {
    LeaderLedOrWon(w.c, a, i);
    ReignsOnlyAdded(w, a);
  }

  lemma ElectionStep(w: World, a: Action)
    requires ElectionInv(w) && Enabled(w.c, a)
    ensures ElectionInv(Step(w, a))
  {
    ShapeStep(w.c, a);
    VotesStep(w, a);
    GrantsStep(w, a);
    ElectionsStep(w, a);
    var w' := Step(w, a);
    forall term | term in w'.h.reigns
      ensures ReignElected(w'.c, w'.h, term)
    {
      ReignsStep(w, a, term);
    }
    TermsKept(w.c, a);
    forall i | 0 <= i < |w'.c.nodes| && w'.c.nodes[i].raft.role == Leader
      ensures w'.c.nodes[i].raft.currentTerm in w'.h.reigns && w'.h.reigns[w'.c.nodes[i].raft.currentTerm].leader == i
    {
      LeadersStep(w, a, i);
    }
  }

  lemma {:induction false} RunElectionInv(n: nat, run: seq<Action>)
    requires n >= 1 && Legal(n, run)
    ensures ElectionInv(Exec(n, run)) && |Exec(n, run).c.nodes| == n
    decreases |run|
  {
    if run != [] {
      var before := run[..|run| - 1];
      RunElectionInv(n, before);
      ElectionStep(Exec(n, before), run[|run| - 1]);
      TermsKept(Exec(n, before).c, run[|run| - 1]);
    }
  }

  lemma {:induction false} ReignsPersist(n: nat, run: seq<Action>, p: nat)
    requires n >= 1 && Legal(n, run) && p <= |run| && Legal(n, run[..p])
    ensures forall term :: term in Exec(n, run[..p]).h.reigns ==>
      && term in Exec(n, run).h.reigns
      && Exec(n, run).h.reigns[term].leader == Exec(n, run[..p]).h.reigns[term].leader
    decreases |run|
  {
    if p == |run| {
      assert run[..p] == run;
    } else {
      var before := run[..|run| - 1];
      assert before[..p] == run[..p];
      ReignsPersist(n, before, p);
      RunElectionInv(n, before);
      ReignsOnlyAdded(Exec(n, before), run[|run| - 1]);
    }
  }
}
