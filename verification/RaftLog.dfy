/** What every log, candidate, leader and message of a guarded run looks like, stated against the
    history of reigns.  The invariant that carries the safety proof is Keeps: a peer that once
    matched a leader of `term` up to an entry of that term still has everything up to that entry,
    unless some later leader took office without it.
 */
module RaftLog {
  import opened RaftTypes
  import opened RaftCluster
  import opened RaftElection

  // Every entry was created by the leader of its term, at this index, after this very prefix.
  ghost predicate EntryOK(h: History, log: seq<Entry>, i: nat)
    requires i < |log|
  {
    var t := log[i].term;
    && t in h.reigns
    && |h.reigns[t].initial| <= i
    && log[..i + 1] <= h.reigns[t].log
  }

  ghost predicate LogOK(h: History, log: seq<Entry>) {
    && |log| >= 1 && log[0] == DUMMY
    && forall i :: 1 <= i < |log| ==> EntryOK(h, log, i)
  }

  ghost predicate ReignOK(h: History, term: nat)
    requires term in h.reigns
  {
    var r := h.reigns[term];
    && term >= 1
    && r.initial <= r.log
    && LogOK(h, r.log)
    && |r.initial| >= 1
    && (forall i :: 0 <= i < |r.initial| ==> r.log[i].term < term)
    && (forall i :: |r.initial| <= i < |r.log| ==> r.log[i].term == term)
  }

  ghost predicate ReignsOK(h: History) {
    forall term {:trigger ReignOK(h, term)} :: term in h.reigns ==> ReignOK(h, term)
  }

  ghost predicate CandidateOK(h: History, i: nat, term: nat)
    requires (i, term) in h.candidates
  {
    var log := h.candidates[(i, term)];
    && Voted(h, i, term, i)
    && LogOK(h, log)
    && forall k :: 0 <= k < |log| ==> log[k].term < term
  }

  ghost predicate CandidatesOK(h: History) {
    forall i, term {:trigger CandidateOK(h, i, term)} :: (i, term) in h.candidates ==> CandidateOK(h, i, term)
  }

  ghost predicate AcksOK(c: Cluster, h: History) {
    forall v, term :: (v, term) in h.acks ==>
      && v < |c.nodes| && term in h.reigns
      && h.acks[(v, term)] < |h.reigns[term].log|
      && term <= c.nodes[v].raft.currentTerm
  }

  ghost predicate NodeLogOK(h: History, i: nat, node: Node) {
    var s := node.raft;
    && LogOK(h, s.log)
    && (forall k :: 0 <= k < |s.log| ==> s.log[k].term <= s.currentTerm)
    // the leader of a term holds that term's log until it moves on to another term
    && (s.currentTerm in h.reigns && h.reigns[s.currentTerm].leader == i ==> s.log == h.reigns[s.currentTerm].log)
    // a candidate's log does not change before somebody wins the term
    && (s.role == Candidate ==> (i, s.currentTerm) in h.candidates && h.candidates[(i, s.currentTerm)] == s.log)
    && ((i, s.currentTerm) in h.candidates && s.currentTerm !in h.reigns ==> h.candidates[(i, s.currentTerm)] == s.log)
    && (node.election.Election? ==> (i, node.election.term) in h.candidates)
  }

  // nextIndex[j] exceeds what peer j has matched only while it is still the leader's first guess.
  ghost predicate IndexOK(n: nat, h: History, i: nat, s: Server)
    requires s.currentTerm in h.reigns
  {
    var term := s.currentTerm;
    && |s.nextIndex| == |s.matchIndex| == n
    && Ack(h, i, term) == |s.log| - 1
    && forall j :: 0 <= j < n && j != i ==>
         && 1 <= s.nextIndex[j] <= Max(|h.reigns[term].initial|, Ack(h, j, term) + 1)
         && 0 <= s.matchIndex[j] <= Ack(h, j, term)
  }

  ghost predicate NodeOK(n: nat, h: History, i: nat, node: Node) {
    && NodeLogOK(h, i, node)
    && (node.raft.role == Leader ==> node.raft.currentTerm in h.reigns && IndexOK(n, h, i, node.raft))
  }

  // A request carries the leader's whole log above prevLogIndex, so its leaderCommit never points
  // past its last entry.
  ghost predicate RequestOK(h: History, to: nat, args: AppendArgs) {
    && args.term in h.reigns
    && var r := h.reigns[args.term];
    && args.leaderId == r.leader
    && |r.initial| <= args.End() + 1 <= |r.log|
    && args.prevLogTerm == r.log[args.prevLogIndex].term
    && args.entries == r.log[args.prevLogIndex + 1..args.End() + 1]
    && args.leaderCommit <= args.End()
    && args.prevLogIndex + 1 <= Max(|r.initial|, Ack(h, to, args.term) + 1)
  }

  // The hints in a rejection point below prevLogIndex.
  ghost predicate HintOK(h: History, args: AppendArgs, reply: AppendReply) {
    if reply.xTerm == 0 then
      1 <= reply.xLength <= args.prevLogIndex
    else
      && reply.xTerm != args.prevLogTerm
      && reply.xTerm in h.reigns
      && |h.reigns[reply.xTerm].initial| <= args.prevLogIndex < |h.reigns[reply.xTerm].log|
      && 1 <= reply.xIndex <= args.prevLogIndex
  }

  ghost predicate ReplyOK(h: History, to: nat, args: AppendArgs, reply: AppendReply) {
    && (reply.success ==> args.End() <= Ack(h, to, args.term))
    && (!reply.success && reply.term <= args.term ==> HintOK(h, args, reply))
  }

  ghost predicate MessageOK(h: History, sends: nat, m: Message) {
    match m
    case VoteRequest(_, vote) =>
      && (vote.candidateId, vote.term) in h.candidates
      && var log := h.candidates[(vote.candidateId, vote.term)];
      |log| >= 1 && vote.lastLogIndex == |log| - 1 && vote.lastLogTerm == log[|log| - 1].term
    case VoteResponse(_, _, _) => true
    case AppendRequest(sendNo, to, args) => sendNo < sends && RequestOK(h, to, args)
    case AppendResponse(sendNo, to, args, reply) => RequestOK(h, to, args) && ReplyOK(h, to, args, reply)
  }

  /// ## Retention

  // Peer v matched the leader of `term` up to index k, which holds an entry of that term.
  ghost predicate Acked(h: History, v: nat, term: nat, k: nat) {
    && (v, term) in h.acks && term in h.reigns
    && |h.reigns[term].initial| <= k <= h.acks[(v, term)]
    && k < |h.reigns[term].log|
  }

  ghost function UpTo(h: History, term: nat, k: nat): seq<Entry>
    requires term in h.reigns && k < |h.reigns[term].log|
  {
    h.reigns[term].log[..k + 1]
  }

  // Some leader of a term in (term, bound) took office without p.
  ghost predicate Abandoned(h: History, p: seq<Entry>, term: nat, bound: nat) {
    exists t :: term < t < bound && t in h.reigns && !(p <= h.reigns[t].initial)
  }

  ghost predicate Keeps(h: History, v: nat, log: seq<Entry>, bound: nat) {
    forall term: nat, k: nat :: Acked(h, v, term, k) && term < bound ==>
      UpTo(h, term, k) <= log || Abandoned(h, UpTo(h, term, k), term, bound)
  }

  ghost predicate NodeKeeps(h: History, v: nat, s: Server) {
    Keeps(h, v, s.log, s.currentTerm + 1)
  }

  ghost predicate NodesKeep(c: Cluster, h: History) {
    forall v {:trigger NodeKeeps(h, v, c.nodes[v].raft)} :: 0 <= v < |c.nodes| ==> NodeKeeps(h, v, c.nodes[v].raft)
  }

  // Votes go to candidates, and the voter of an undecided candidate kept nothing it lacks.
  ghost predicate VoterKeeps(h: History, v: nat, term: nat)
    requires (v, term) in h.votes
  {
    var candidate := h.votes[(v, term)];
    && (candidate, term) in h.candidates
    && (term !in h.reigns ==> Keeps(h, v, h.candidates[(candidate, term)], term))
  }

  ghost predicate VotersKeep(h: History) {
    forall v, term {:trigger VoterKeeps(h, v, term)} :: (v, term) in h.votes ==> VoterKeeps(h, v, term)
  }

  ghost predicate ReignKeeps(h: History, term: nat)
    requires term in h.reigns
  {
    forall v {:trigger Keeps(h, v, h.reigns[term].initial, term)} :: v in h.reigns[term].quorum ==>
      Keeps(h, v, h.reigns[term].initial, term)
  }

  ghost predicate ReignsKeep(h: History) {
    forall term {:trigger ReignKeeps(h, term)} :: term in h.reigns ==> ReignKeeps(h, term)
  }

  /// ## Commitment

  ghost predicate AckQuorum(n: nat, h: History, term: nat, k: nat, q: set<nat>) {
    && |q| >= n - n / 2
    && forall v :: v in q ==> v < n && Acked(h, v, term, k)
  }

  // A majority matched the leader of `term` up to an entry of that term.
  ghost predicate Committed(n: nat, h: History, term: nat, k: nat) {
    && term in h.reigns && k < |h.reigns[term].log|
    && exists q :: AckQuorum(n, h, term, k, q)
  }

  ghost predicate CommittedBy(n: nat, h: History, p: seq<Entry>, term: nat, k: nat) {
    Committed(n, h, term, k) && p <= UpTo(h, term, k)
  }

  // p is part of what leaders of terms up to `bound` have committed.
  ghost predicate Settled(n: nat, h: History, p: seq<Entry>, bound: nat) {
    p <= [DUMMY] || exists term: nat, k: nat :: term <= bound && CommittedBy(n, h, p, term, k)
  }

  ghost predicate NodeCommitOK(n: nat, h: History, s: Server)
    requires s.commitIndex < |s.log|
  {
    Settled(n, h, s.log[..s.commitIndex + 1], s.currentTerm)
  }

  // Entries 1, 2, 3, ... of a log, as they are delivered.
  ghost function Commands(p: seq<Entry>): seq<ApplyMsg> {
    seq(if |p| == 0 then 0 else |p| - 1, i requires 0 <= i < |p| - 1 => ApplyCommand(i + 1, p[i + 1].command))
  }

  ghost predicate NodeDelivered(node: Node)
    requires node.raft.lastApplied < |node.raft.log|
  {
    node.delivered == Commands(node.raft.log[..node.raft.lastApplied + 1])
  }

  ghost predicate CommitsOK(c: Cluster, h: History)
    requires Shape(c)
  {
    forall i {:trigger NodeCommitOK(|c.nodes|, h, c.nodes[i].raft)} {:trigger NodeDelivered(c.nodes[i])} ::
      0 <= i < |c.nodes| ==> NodeCommitOK(|c.nodes|, h, c.nodes[i].raft) && NodeDelivered(c.nodes[i])
  }

  ghost predicate RequestCommitOK(n: nat, h: History, args: AppendArgs) {
    && args.term in h.reigns && args.leaderCommit < |h.reigns[args.term].log|
    && Settled(n, h, UpTo(h, args.term, args.leaderCommit), args.term)
  }

  ghost predicate RequestsCommitOK(c: Cluster, h: History) {
    forall m {:trigger RequestCommitOK(|c.nodes|, h, m.append)} ::
      m in c.net && m.AppendRequest? ==> RequestCommitOK(|c.nodes|, h, m.append)
  }

  /// ## The whole invariant

  ghost predicate HistoryOK(h: History) {
    ReignsOK(h) && CandidatesOK(h)
  }

  ghost predicate NodesOK(c: Cluster, h: History) {
    forall i {:trigger NodeOK(|c.nodes|, h, i, c.nodes[i])} :: 0 <= i < |c.nodes| ==>
      NodeOK(|c.nodes|, h, i, c.nodes[i])
  }

  ghost predicate NetOK(c: Cluster, h: History) {
    forall m {:trigger MessageOK(h, c.sends, m)} :: m in c.net ==> MessageOK(h, c.sends, m)
  }

  ghost predicate LogInv(w: World) {
    && ElectionInv(w)
    && HistoryOK(w.h) && AcksOK(w.c, w.h)
    && NodesOK(w.c, w.h) && NetOK(w.c, w.h)
    && NodesKeep(w.c, w.h) && VotersKeep(w.h) && ReignsKeep(w.h)
    && CommitsOK(w.c, w.h) && RequestsCommitOK(w.c, w.h)
  }

  /// ## Facts about single logs

  // Terms never decrease along a log.
  lemma LogSorted(h: History, log: seq<Entry>)
    requires ReignsOK(h) && LogOK(h, log)
    ensures SortedTerms(log)
  {
    forall i, j | 0 <= i <= j < |log|
      ensures log[i].term <= log[j].term
    {
      if j >= 1 {
        assert EntryOK(h, log, j);
        var r := h.reigns[log[j].term];
        assert ReignOK(h, log[j].term);
        assert log[i] == log[..j + 1][i] == r.log[i];
      }
    }
  }

  // Two logs that agree on the term at an index agree on everything up to it.
  lemma LogsMatch(h: History, a: seq<Entry>, b: seq<Entry>, i: nat)
    requires LogOK(h, a) && LogOK(h, b)
    requires i < |a| && i < |b| && a[i].term == b[i].term
    ensures a[..i + 1] == b[..i + 1]
  {
    if i >= 1 {
      assert EntryOK(h, a, i) && EntryOK(h, b, i);
    } else {
      assert a[..1] == [a[0]] && b[..1] == [b[0]];
    }
  }

  lemma PrefixOK(h: History, log: seq<Entry>, i: nat)
    requires LogOK(h, log) && 1 <= i <= |log|
    ensures LogOK(h, log[..i])
  {
    forall j | 1 <= j < i
      ensures EntryOK(h, log[..i], j)
    {
      assert EntryOK(h, log, j);
      assert log[..i][..j + 1] == log[..j + 1];
    }
  }

  /// ## The history only grows

  ghost predicate ReignGrows(r: Reign, r': Reign) {
    r'.leader == r.leader && r'.quorum == r.quorum && r'.initial == r.initial && r.log <= r'.log
  }

  ghost predicate Extends(h: History, h': History) {
    && (forall term :: term in h.reigns ==> term in h'.reigns && ReignGrows(h.reigns[term], h'.reigns[term]))
    && (forall x :: x in h.acks ==> x in h'.acks && h.acks[x] <= h'.acks[x])
    && (forall x :: x in h.candidates ==> x in h'.candidates && h.candidates[x] == h'.candidates[x])
  }

  lemma LogOKExtends(h: History, h': History, log: seq<Entry>)
    requires Extends(h, h') && LogOK(h, log)
    ensures LogOK(h', log)
  {
    forall i | 1 <= i < |log|
      ensures EntryOK(h', log, i)
    {
      assert EntryOK(h, log, i);
    }
  }

  lemma AckExtends(h: History, h': History, v: nat, term: nat)
    requires Extends(h, h')
    ensures Ack(h, v, term) <= Ack(h', v, term)
  {
  }

  lemma MessageOKExtends(h: History, h': History, sends: nat, sends': nat, m: Message)
    requires Extends(h, h') && sends <= sends' && MessageOK(h, sends, m)
    ensures MessageOK(h', sends', m)
  {
    if m.AppendRequest? || m.AppendResponse? {
      AckExtends(h, h', m.to, m.append.term);
      var r, r' := h.reigns[m.append.term], h'.reigns[m.append.term];
      var prev, end := m.append.prevLogIndex, m.append.End();
      assert r'.log[prev] == r.log[prev];
      assert r'.log[prev + 1..end + 1] == r.log[prev + 1..end + 1];
    }
  }

  // A peer that the step did not touch stays as the invariant wants it.
  lemma NodeOKExtends(n: nat, h: History, h': History, i: nat, node: Node)
    requires Extends(h, h') && NodeOK(n, h, i, node)
    requires node.raft.currentTerm in h.reigns && h.reigns[node.raft.currentTerm].leader == i ==>
               h'.reigns[node.raft.currentTerm].log == h.reigns[node.raft.currentTerm].log
    requires node.raft.currentTerm in h'.reigns && node.raft.currentTerm !in h.reigns ==>
               h'.reigns[node.raft.currentTerm].leader != i
    requires (i, node.raft.currentTerm) in h'.candidates ==> (i, node.raft.currentTerm) in h.candidates
    requires node.raft.role == Leader ==> Ack(h', i, node.raft.currentTerm) == Ack(h, i, node.raft.currentTerm)
    ensures NodeOK(n, h', i, node)
  {
    LogOKExtends(h, h', node.raft.log);
    if node.raft.role == Leader {
      forall j | 0 <= j < n
        ensures Ack(h, j, node.raft.currentTerm) <= Ack(h', j, node.raft.currentTerm)
      {
        AckExtends(h, h', j, node.raft.currentTerm);
      }
    }
  }

  lemma AbandonedExtends(h: History, h': History, p: seq<Entry>, term: nat, bound: nat, bound': nat)
    requires Extends(h, h') && Abandoned(h, p, term, bound) && bound <= bound'
    ensures Abandoned(h', p, term, bound')
  {
    var t :| term < t < bound && t in h.reigns && !(p <= h.reigns[t].initial);
    assert t in h'.reigns;
  }

  // Keeps survives a step when every acknowledgement it must answer for is an old one or is met
  // by the new log, and the new log gives up only what a new leader had abandoned.
  lemma KeepsMoves(h: History, h': History, v: nat, log: seq<Entry>, bound: nat, log': seq<Entry>, bound': nat)
    requires Extends(h, h') && Keeps(h, v, log, bound) && bound <= bound'
    requires forall term: nat, k: nat {:trigger Acked(h', v, term, k)} :: Acked(h', v, term, k) && term < bound' ==>
               (Acked(h, v, term, k) && term < bound) || UpTo(h', term, k) <= log'
    requires forall term: nat, k: nat {:trigger Acked(h, v, term, k)} ::
               Acked(h, v, term, k) && term < bound && UpTo(h, term, k) <= log ==>
               UpTo(h, term, k) <= log' || Abandoned(h', UpTo(h, term, k), term, bound')
    ensures Keeps(h', v, log', bound')
  {
    forall term: nat, k: nat | Acked(h', v, term, k) && term < bound'
      ensures UpTo(h', term, k) <= log' || Abandoned(h', UpTo(h', term, k), term, bound')
    {
      if !(UpTo(h', term, k) <= log') {
        assert Acked(h, v, term, k);
        assert UpTo(h', term, k) == UpTo(h, term, k);
        if Abandoned(h, UpTo(h, term, k), term, bound) {
          AbandonedExtends(h, h', UpTo(h, term, k), term, bound, bound');
        }
      }
    }
  }

  lemma CommittedExtends(n: nat, h: History, h': History, term: nat, k: nat)
    requires Extends(h, h') && Committed(n, h, term, k)
    ensures Committed(n, h', term, k) && UpTo(h', term, k) == UpTo(h, term, k)
  {
    var q :| AckQuorum(n, h, term, k, q);
    forall v | v in q
      ensures Acked(h', v, term, k)
    {
      assert Acked(h, v, term, k);
    }
    assert AckQuorum(n, h', term, k, q);
  }

  lemma SettledExtends(n: nat, h: History, h': History, p: seq<Entry>, bound: nat, bound': nat)
    requires Extends(h, h') && Settled(n, h, p, bound) && bound <= bound'
    ensures Settled(n, h', p, bound')
  {
    if !(p <= [DUMMY]) {
      var term: nat, k: nat :| term <= bound && CommittedBy(n, h, p, term, k);
      CommittedExtends(n, h, h', term, k);
      assert CommittedBy(n, h', p, term, k);
    }
  }

  lemma SettledPrefix(n: nat, h: History, p: seq<Entry>, q: seq<Entry>, bound: nat)
    requires Settled(n, h, p, bound) && q <= p
    ensures Settled(n, h, q, bound)
  {
    if !(p <= [DUMMY]) {
      var term: nat, k: nat :| term <= bound && CommittedBy(n, h, p, term, k);
      assert CommittedBy(n, h, q, term, k);
    }
  }
}
