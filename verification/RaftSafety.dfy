/** What holds of every run of a cluster of n peers, at any two moments p and q of it.  Election
    safety, delivery in order and the permanence of commits hold whatever the network does; the rest
    when every accepted AppendEntries reaches as far as its receiver has acknowledged.  Peers crash
    and restart at will, so the two moments may belong to different incarnations.
 */
module RaftSafety {
  import opened RaftTypes
  import opened RaftCluster
  import opened RaftElection
  import opened RaftLog
  import opened RaftRetain
  import opened RaftSteps
  import opened RaftKeep
  import RaftQuorum

  /// ## Any network at all

  // Peer i after the first p steps.
  ghost function NodeAt(n: nat, run: seq<Action>, p: nat, i: nat): Node
    requires n >= 1 && Legal(n, run) && p <= |run| && i < n
  {
    PrefixLegal(n, run, p);
    RunElectionInv(n, run[..p]);
    Exec(n, run[..p]).c.nodes[i]
  }

  ghost predicate LeadsAt(n: nat, run: seq<Action>, p: nat, i: nat, term: nat)
    requires n >= 1 && Legal(n, run) && p <= |run|
  {
    i < n && var s := NodeAt(n, run, p, i).raft; s.role == Leader && s.currentTerm == term
  }

  // Over a whole run, at whatever two moments one looks, a term has at most one leader.
  lemma ElectionSafety(n: nat, run: seq<Action>, p: nat, q: nat, i: nat, j: nat, term: nat)
    requires n >= 1 && Legal(n, run) && p <= |run| && q <= |run|
    requires LeadsAt(n, run, p, i, term) && LeadsAt(n, run, q, j, term)
    ensures i == j
  {
    PrefixLegal(n, run, p);
    PrefixLegal(n, run, q);
    RunElectionInv(n, run[..p]);
    RunElectionInv(n, run[..q]);
    ReignsPersist(n, run, p);
    ReignsPersist(n, run, q);
  }

  // A peer has delivered the commands of its log up to lastApplied.
  ghost predicate DeliversLog(node: Node) {
    node.raft.lastApplied < |node.raft.log| && NodeDelivered(node)
  }

  ghost predicate AllDeliverLog(c: Cluster) {
    forall i {:trigger DeliversLog(c.nodes[i])} :: 0 <= i < |c.nodes| ==> DeliversLog(c.nodes[i])
  }

  lemma {:induction false} RunDeliversLog(n: nat, run: seq<Action>)
    requires n >= 1 && Legal(n, run)
    ensures AllDeliverLog(Exec(n, run).c)
    decreases |run|
  {
    if run == [] {
      assert Boot().log[..1] == [DUMMY];
    } else {
      var before, a := run[..|run| - 1], run[|run| - 1];
      var c := Exec(n, before).c;
      RunDeliversLog(n, before);
      RunElectionInv(n, before);
      TermsKept(c, a);
      forall i | 0 <= i < |Do(c, a).nodes|
        ensures DeliversLog(Do(c, a).nodes[i])
      {
        assert DeliversLog(c.nodes[i]);
        NodeDeliveredStep(c, a, i);
      }
    }
  }

  lemma NodeDeliversLog(n: nat, run: seq<Action>, p: nat, i: nat)
    requires n >= 1 && Legal(n, run) && p <= |run| && i < n
    ensures DeliversLog(NodeAt(n, run, p, i))
  {
    PrefixLegal(n, run, p);
    RunDeliversLog(n, run[..p]);
    RunElectionInv(n, run[..p]);
    var c := Exec(n, run[..p]).c;
    assert DeliversLog(c.nodes[i]);
  }

  lemma DeliveredAt(node: Node, x: nat)
    requires DeliversLog(node) && x < |node.delivered|
    ensures x + 1 < |node.raft.log| && node.delivered[x] == ApplyCommand(x + 1, node.raft.log[x + 1].command)
  {
  }

  // Deliveries carry the indices 1, 2, 3, ... without a gap, and the commands that the log has at
  // these indices.
  lemma DeliveredInOrder(n: nat, run: seq<Action>, p: nat, i: nat, x: nat)
    requires n >= 1 && Legal(n, run) && p <= |run| && i < n
    requires x < |NodeAt(n, run, p, i).delivered|
    ensures x + 1 < |NodeAt(n, run, p, i).raft.log|
    ensures NodeAt(n, run, p, i).delivered[x] == ApplyCommand(x + 1, NodeAt(n, run, p, i).raft.log[x + 1].command)
  {
    NodeDeliversLog(n, run, p, i);
    DeliveredAt(NodeAt(n, run, p, i), x);
  }

  ghost predicate Up(n: nat, run: seq<Action>, p: nat, q: nat, i: nat) {
    forall t :: p <= t < q && t < |run| ==> run[t] != Crash(i)
  }

  // s' still has everything s had committed, and has committed it.
  predicate CommitsMore(s: Server, s': Server) {
    && s.commitIndex < |s.log| && s'.commitIndex < |s'.log|
    && s.log[..s.commitIndex + 1] <= s'.log[..s'.commitIndex + 1]
  }

  lemma ReceiverCommitsMore(c: Cluster, m: Message)
    requires Shape(c) && Enabled(c, HandleAppend(m))
    ensures CommitsMore(c.nodes[m.to].raft, AnswerAppend(c.nodes[m.to].raft, m.append).0)
  {
    var s := c.nodes[m.to].raft;
    assert NodeShape(|c.nodes|, s);
    CommittedPrefixStays(|c.nodes|, s, m.append);
    var s' := AnswerAppend(s, m.append).0;
    assert s'.log[..s.commitIndex + 1] == s'.log[..s'.commitIndex + 1][..s.commitIndex + 1];
  }

  lemma CommitGrows(c: Cluster, a: Action, i: nat)
    requires Shape(c) && Enabled(c, a) && a != Crash(i) && i < |c.nodes|
    ensures i < |Do(c, a).nodes| && CommitsMore(c.nodes[i].raft, Do(c, a).nodes[i].raft)
  {
    assert NodeShape(|c.nodes|, c.nodes[i].raft);
    NodesShaped(c, a, i);
    if i != Actor(a) {
      BystanderSame(c, a, i);
    } else if a.HandleAppend? {
      ReceiverCommitsMore(c, a.m);
    } else {
      LogOnlyGrows(c, a);
      LonelyCommit(c.nodes[i].raft, Do(c, a).nodes[i].raft);
    }
  }

  lemma LonelyCommit(s: Server, s': Server)
    requires s.log <= s'.log && s.commitIndex <= s'.commitIndex < |s'.log| && s.commitIndex < |s.log|
    ensures CommitsMore(s, s')
  {
    assert s.log[..s.commitIndex + 1] == s'.log[..s'.commitIndex + 1][..s.commitIndex + 1];
  }

  lemma CommitsMoreStep(n: nat, run: seq<Action>, p: nat, i: nat)
    requires n >= 1 && Legal(n, run) && p < |run| && i < n && run[p] != Crash(i)
    ensures CommitsMore(NodeAt(n, run, p, i).raft, NodeAt(n, run, p + 1, i).raft)
  {
    PrefixLegal(n, run, p + 1);
    assert run[..p + 1][..p] == run[..p];
    RunElectionInv(n, run[..p]);
    CommitGrows(Exec(n, run[..p]).c, run[p], i);
  }

  // While a peer stays up, its committed prefix only grows.
  lemma {:induction false} CommitsStay(n: nat, run: seq<Action>, p: nat, q: nat, i: nat)
    requires n >= 1 && Legal(n, run) && p <= q <= |run| && i < n && Up(n, run, p, q, i)
    ensures CommitsMore(NodeAt(n, run, p, i).raft, NodeAt(n, run, q, i).raft)
    decreases q
  {
    if p < q {
      CommitsStay(n, run, p, q - 1, i);
      CommitsMoreStep(n, run, q - 1, i);
    } else {
      PrefixLegal(n, run, q);
      RunElectionInv(n, run[..q]);
      assert NodeShape(n, NodeAt(n, run, q, i).raft);
    }
  }

  // A request carries its sender's whole log from prevLogIndex on.
  lemma SentToTheEnd(c: Cluster, i: nat, peer: nat)
    requires Shape(c) && Enabled(c, Replicate(i, peer))
    ensures var s := Clip(c.nodes[i].raft, peer); var args := NextRequest(s, i, peer);
            args.End() == |s.log| - 1 && args.leaderCommit <= args.End()
  {
    assert NodeShape(|c.nodes|, c.nodes[i].raft);
  }

  // Every AppendEntries ever sent has LeaderCommit <= PrevLogIndex + len(Entries), so a receiver
  // commits nothing that the request did not cover.
  lemma {:induction false} LeaderCommitIsSent(n: nat, run: seq<Action>, m: Message)
    requires n >= 1 && Legal(n, run) && m in Exec(n, run).c.net && m.AppendRequest?
    ensures m.append.leaderCommit <= m.append.End()
    decreases |run|
  {
    if run != [] {
      var before, a := run[..|run| - 1], run[|run| - 1];
      if m in Exec(n, before).c.net {
        LeaderCommitIsSent(n, before, m);
      } else {
        RunElectionInv(n, before);
        assert a.Replicate?;
        SentToTheEnd(Exec(n, before).c, a.i, a.peer);
      }
    }
  }

  /// ## Guarded runs

  lemma InvAt(n: nat, run: seq<Action>, p: nat)
    requires n >= 1 && LegalGuarded(n, run) && p <= |run|
    ensures LegalGuarded(n, run[..p])
    ensures LogInv(Exec(n, run[..p])) && |Exec(n, run[..p]).c.nodes| == n
  {
    PrefixGuarded(n, run, p);
    RunElectionInv(n, run[..p]);
    RunLogInv(n, run[..p]);
  }

  lemma {:induction false} HistoryExtends(n: nat, run: seq<Action>, p: nat)
    requires n >= 1 && LegalGuarded(n, run) && p <= |run| && LegalGuarded(n, run[..p])
    ensures Extends(Exec(n, run[..p]).h, Exec(n, run).h)
    decreases |run|
  {
    if p == |run| {
      assert run[..p] == run;
    } else {
      var before := run[..|run| - 1];
      assert before[..p] == run[..p];
      HistoryExtends(n, before, p);
      RunLogInv(n, before);
      ExtendsStep(Exec(n, before), run[|run| - 1]);
    }
  }

  // The invariant of one peer, as far as the theorems below need it.
  ghost predicate Sound(n: nat, h: History, node: Node) {
    var s := node.raft;
    && LogOK(h, s.log)
    && s.lastApplied <= s.commitIndex < |s.log|
    && Settled(n, h, s.log[..s.commitIndex + 1], s.currentTerm)
    && NodeDelivered(node)
    && (s.role == Leader ==> s.currentTerm in h.reigns && h.reigns[s.currentTerm].initial <= s.log)
  }

  lemma SoundNow(w: World, i: nat)
    requires LogInv(w) && i < |w.c.nodes|
    ensures Sound(|w.c.nodes|, w.h, w.c.nodes[i])
  {
    var node := w.c.nodes[i];
    assert NodeShape(|w.c.nodes|, node.raft);
    assert NodeOK(|w.c.nodes|, w.h, i, node) && NodeCommitOK(|w.c.nodes|, w.h, node.raft) && NodeDelivered(node);
    if node.raft.role == Leader {
      assert ReignOK(w.h, node.raft.currentTerm);
    }
  }

  lemma SoundLater(n: nat, h: History, h': History, node: Node)
    requires Extends(h, h') && Sound(n, h, node)
    ensures Sound(n, h', node)
  {
    var s := node.raft;
    LogOKExtends(h, h', s.log);
    SettledExtends(n, h, h', s.log[..s.commitIndex + 1], s.currentTerm, s.currentTerm);
  }

  // Peer i at moment p is sound against the history of the whole run.
  lemma NodeFacts(n: nat, run: seq<Action>, p: nat, i: nat)
    requires n >= 1 && LegalGuarded(n, run) && p <= |run| && i < n
    ensures Sound(n, Exec(n, run).h, NodeAt(n, run, p, i))
  {
    InvAt(n, run, p);
    SoundNow(Exec(n, run[..p]), i);
    HistoryExtends(n, run, p);
    SoundLater(n, Exec(n, run[..p]).h, Exec(n, run).h, NodeAt(n, run, p, i));
  }

  lemma FinalFacts(n: nat, run: seq<Action>)
    requires n >= 1 && LegalGuarded(n, run)
    ensures var h := Exec(n, run).h; Quorums(n, h) && ReignsOK(h) && ReignsKeep(h)
  {
    RunLogInv(n, run);
    RunElectionInv(n, run);
    QuorumsOf(Exec(n, run));
  }

  // Log matching: if two logs agree on the term at an index, they agree up to that index.
  lemma LogMatching(n: nat, run: seq<Action>, p: nat, q: nat, i: nat, j: nat, k: nat)
    requires n >= 1 && LegalGuarded(n, run) && p <= |run| && q <= |run| && i < n && j < n
    requires var a, b := NodeAt(n, run, p, i).raft.log, NodeAt(n, run, q, j).raft.log;
             k < |a| && k < |b| && a[k].term == b[k].term
    ensures NodeAt(n, run, p, i).raft.log[..k + 1] == NodeAt(n, run, q, j).raft.log[..k + 1]
  {
    NodeFacts(n, run, p, i);
    NodeFacts(n, run, q, j);
    LogsMatch(Exec(n, run).h, NodeAt(n, run, p, i).raft.log, NodeAt(n, run, q, j).raft.log, k);
  }

  // Leader completeness: whatever a peer has committed is in the log of every leader of a term
  // later than the one the peer committed it in.
  lemma LeaderCompleteness(n: nat, run: seq<Action>, p: nat, q: nat, i: nat, j: nat)
    requires n >= 1 && LegalGuarded(n, run) && p <= |run| && q <= |run| && i < n && j < n
    requires var s, leader := NodeAt(n, run, p, i).raft, NodeAt(n, run, q, j).raft;
             leader.role == Leader && leader.currentTerm > s.currentTerm
    ensures var s, leader := NodeAt(n, run, p, i).raft, NodeAt(n, run, q, j).raft;
            s.commitIndex < |s.log| && s.log[..s.commitIndex + 1] <= leader.log
  {
    NodeFacts(n, run, p, i);
    NodeFacts(n, run, q, j);
    FinalFacts(n, run);
    var h := Exec(n, run).h;
    var s, leader := NodeAt(n, run, p, i).raft, NodeAt(n, run, q, j).raft;
    SettledReachesInitial(n, h, s.log[..s.commitIndex + 1], s.currentTerm, leader.currentTerm);
  }

  lemma SettledReachesInitial(n: nat, h: History, p: seq<Entry>, bound: nat, later: nat)
    requires Quorums(n, h) && ReignsKeep(h) && ReignsOK(h)
    requires Settled(n, h, p, bound) && bound < later && later in h.reigns
    ensures p <= h.reigns[later].initial
  {
    assert ReignOK(h, later);
    if p <= [DUMMY] {
      assert h.reigns[later].log[0] == DUMMY;
    } else {
      var term: nat, k: nat :| term <= bound && CommittedBy(n, h, p, term, k);
      CommittedReachesReign(n, h, term, k, later);
    }
  }

  lemma SoundAgree(n: nat, h: History, a: Node, b: Node)
    requires Quorums(n, h) && ReignsOK(h) && ReignsKeep(h) && Sound(n, h, a) && Sound(n, h, b)
    ensures a.delivered <= b.delivered || b.delivered <= a.delivered
  {
    var s, t := a.raft, b.raft;
    var x, y := s.log[..s.lastApplied + 1], t.log[..t.lastApplied + 1];
    assert x <= s.log[..s.commitIndex + 1] && y <= t.log[..t.commitIndex + 1];
    SettledPrefix(n, h, s.log[..s.commitIndex + 1], x, s.currentTerm);
    SettledPrefix(n, h, t.log[..t.commitIndex + 1], y, t.currentTerm);
    SettledComparable(n, h, x, s.currentTerm, y, t.currentTerm);
  }

  // State machine safety: of any two delivered sequences one is a prefix of the other.
  lemma StateMachineSafety(n: nat, run: seq<Action>, p: nat, q: nat, i: nat, j: nat)
    requires n >= 1 && LegalGuarded(n, run) && p <= |run| && q <= |run| && i < n && j < n
    ensures var a, b := NodeAt(n, run, p, i).delivered, NodeAt(n, run, q, j).delivered;
            a <= b || b <= a
  {
    NodeFacts(n, run, p, i);
    NodeFacts(n, run, q, j);
    FinalFacts(n, run);
    SoundAgree(n, Exec(n, run).h, NodeAt(n, run, p, i), NodeAt(n, run, q, j));
  }

  // In a guarded run no guard of a step is ever in the way: no handler indexes outside its log,
  // no leader falls back to the snapshot branch, and the middle match index is always in the log.
  lemma GuardsHold(n: nat, run: seq<Action>, m: Message, i: nat, peer: nat)
    requires n >= 1 && LegalGuarded(n, run) && i < n && peer < n && i != peer
    ensures var w := Exec(n, run); var c := w.c;
            && i < |c.nodes|
            && (m in c.net && m.VoteRequest? ==> Enabled(c, HandleVote(m)))
            && (m in c.net && m.AppendRequest? ==> Enabled(c, HandleAppend(m)))
            && (c.nodes[i].raft.role == Leader ==> Enabled(c, Replicate(i, peer)) && Enabled(c, Commit(i)))
            && (m in c.net && m.AppendResponse? && m.append.leaderId == i && c.nodes[i].raft.role == Leader ==>
                Enabled(c, HandleAppendReply(m)))
  {
    RunElectionInv(n, run);
    RunLogInv(n, run);
    var w := Exec(n, run);
    assert NodeShape(n, w.c.nodes[i].raft);
    if m in w.c.net {
      assert MessageOK(w.h, w.c.sends, m) && MessageShape(n, m);
      assert NodeShape(n, w.c.nodes[m.to].raft);
    }
    if w.c.nodes[i].raft.role == Leader {
      ReplicatorIndex(w, i, peer);
      MatchedInLog(w, i);
    }
  }

  lemma MatchedInLog(w: World, i: nat)
    requires LogInv(w) && i < |w.c.nodes| && w.c.nodes[i].raft.role == Leader
    ensures var s := w.c.nodes[i].raft; i < |s.matchIndex| && Median(Matched(s, i)) < s.LogLen()
  {
    var s := w.c.nodes[i].raft;
    assert NodeOK(|w.c.nodes|, w.h, i, w.c.nodes[i]) && NodeShape(|w.c.nodes|, s);
    var matched := Matched(s, i);
    RaftQuorum.SortSorts(matched);
    var k := RaftTypes.Sort(matched)[|matched| / 2];
    assert k in multiset(RaftTypes.Sort(matched));
    assert k in matched;
    forall j | 0 <= j < |matched|
      ensures matched[j] < s.LogLen()
    {
      assert j != i ==> matched[j] == s.matchIndex[j] <= Ack(w.h, j, s.currentTerm);
    }
  }

  // Fast log back-up: a rejection that a leader uses sets nextIndex below the index that was
  // tried, and never below 1.  So nextIndex falls strictly whenever it has not moved since the
  // request was built.
  lemma BackUpMakesProgress(n: nat, run: seq<Action>, m: Message)
    requires n >= 1 && LegalGuarded(n, run)
    requires var w := Exec(n, run); Enabled(w.c, HandleAppendReply(m))
    requires var s := Exec(n, run).c.nodes[m.append.leaderId].raft; s.role == Leader && s.currentTerm == m.append.term
    requires !m.appendReply.success && m.appendReply.term <= m.append.term
    ensures var w := Exec(n, run); var i := m.append.leaderId;
            var tried := w.c.nodes[i].raft.nextIndex[m.to];
            var next := Do(w.c, HandleAppendReply(m)).nodes[i].raft.nextIndex[m.to];
            && 1 <= next <= m.append.prevLogIndex
            && (tried == m.append.prevLogIndex + 1 ==> next < tried)
  {
    RunElectionInv(n, run);
    RunLogInv(n, run);
    BackedUp(Exec(n, run), m);
  }
}
