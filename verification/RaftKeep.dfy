/** Every step of a guarded run keeps the retention and commit invariants. */
module RaftKeep {
  import opened RaftTypes
  import opened RaftCluster
  import opened RaftElection
  import opened RaftLog
  import opened RaftRetain
  import opened RaftSteps
  import opened RaftQuorum

  /// ## What peers keep

  // A step acknowledges nothing in a term that the peer has already left.
  lemma NoOldAcks(w: World, a: Action, v: nat, bound: nat)
    requires LogInv(w) && Enabled(w.c, a)
    requires v < |w.c.nodes| && (v != Actor(a) || bound <= w.c.nodes[v].raft.currentTerm)
    ensures forall term: nat, k: nat {:trigger Acked(Record(w.c, w.h, a), v, term, k)} ::
              Acked(Record(w.c, w.h, a), v, term, k) && term < bound ==> Acked(w.h, v, term, k)
  {
    var h' := Record(w.c, w.h, a);
    ExtendsStep(w, a);
    forall term: nat, k: nat | Acked(h', v, term, k) && term < bound
      ensures Acked(w.h, v, term, k)
    {
      assert (v, term) in w.h.acks && w.h.acks[(v, term)] == h'.acks[(v, term)] by {
        AcksSame(w, a, v, term, bound);
      }
    }
  }

  lemma AcksSame(w: World, a: Action, v: nat, term: nat, bound: nat)
    requires LogInv(w) && Enabled(w.c, a) && term < bound
    requires v < |w.c.nodes| && (v != Actor(a) || bound <= w.c.nodes[v].raft.currentTerm)
    requires (v, term) in Record(w.c, w.h, a).acks
    ensures (v, term) in w.h.acks && w.h.acks[(v, term)] == Record(w.c, w.h, a).acks[(v, term)]
  {
  }

  lemma KeepsUnmoved(w: World, a: Action, v: nat, log: seq<Entry>, bound: nat)
    requires LogInv(w) && Enabled(w.c, a) && Keeps(w.h, v, log, bound)
    requires v < |w.c.nodes| && (v != Actor(a) || bound <= w.c.nodes[v].raft.currentTerm)
    ensures Keeps(Record(w.c, w.h, a), v, log, bound)
  {
    ExtendsStep(w, a);
    NoOldAcks(w, a, v, bound);
    KeepsMoves(w.h, Record(w.c, w.h, a), v, log, bound, log, bound);
  }

  // Acknowledgements never run ahead of the peer's term.
  lemma AckedInPast(w: World, v: nat, term: nat, k: nat)
    requires AcksOK(w.c, w.h) && Acked(w.h, v, term, k)
    ensures v < |w.c.nodes| && term <= w.c.nodes[v].raft.currentTerm
  {
  }

  // The steps that leave the actor's log and its acknowledgements alone.
  predicate Still(c: Cluster, a: Action)
    requires Enabled(c, a)
  {
    && !a.Submit?
    && (a.HandleVoteReply? ==> !Wins(c, a.m))
    && (a.HandleAppend? ==> !AnswerAppend(c.nodes[a.m.to].raft, a.m.append).1.success)
  }

  lemma StillLog(c: Cluster, h: History, a: Action)
    requires Shape(c) && Enabled(c, a) && Still(c, a) && Actor(a) < |c.nodes| == |Do(c, a).nodes|
    ensures c.nodes[Actor(a)].raft.log == Do(c, a).nodes[Actor(a)].raft.log
    ensures h.acks == Record(c, h, a).acks
  {
    if a.HandleAppend? {
      RejectedUnchanged(c.nodes[a.m.to].raft, a.m.append);
    }
  }

  // Such a step may still move the actor's term.
  lemma StillKeeps(w: World, a: Action)
    requires LogInv(w) && Enabled(w.c, a) && Still(w.c, a) && Actor(a) < |w.c.nodes| == |Do(w.c, a).nodes|
    ensures NodeKeeps(Record(w.c, w.h, a), Actor(a), Do(w.c, a).nodes[Actor(a)].raft)
  {
    var v := Actor(a);
    var s, s' := w.c.nodes[v].raft, Do(w.c, a).nodes[v].raft;
    var h' := Record(w.c, w.h, a);
    StillLog(w.c, w.h, a);
    ExtendsStep(w, a);
    TermsKept(w.c, a);
    assert NodeKeeps(w.h, v, s);
    forall term: nat, k: nat {:trigger Acked(h', v, term, k)} | Acked(h', v, term, k)
      ensures Acked(w.h, v, term, k) && term <= s.currentTerm
    {
      assert Acked(w.h, v, term, k);
      AckedInPast(w, v, term, k);
    }
    KeepsMoves(w.h, h', v, s.log, s.currentTerm + 1, s'.log, s'.currentTerm + 1);
  }

  lemma WinnerKeeps(w: World, m: Message)
    requires LogInv(w) && Enabled(w.c, HandleVoteReply(m)) && Wins(w.c, m)
    ensures var i := m.vote.candidateId; var a := HandleVoteReply(m);
            NodeKeeps(Record(w.c, w.h, a), i, Do(w.c, a).nodes[i].raft)
  {
    var i := m.vote.candidateId;
    var s := w.c.nodes[i].raft;
    var h' := Record(w.c, w.h, HandleVoteReply(m));
    WinnerIsFirst(w, m);
    ExtendsStep(w, HandleVoteReply(m));
    assert NodeKeeps(w.h, i, s);
    forall term: nat, k: nat {:trigger Acked(h', i, term, k)} | Acked(h', i, term, k)
      ensures Acked(w.h, i, term, k) && term <= s.currentTerm
    {
      assert term != m.vote.term;
      AckedInPast(w, i, term, k);
    }
    KeepsMoves(w.h, h', i, s.log, s.currentTerm + 1, s.log, s.currentTerm + 1);
  }

  lemma ProposerKeeps(w: World, i: nat, command: Command)
    requires LogInv(w) && Enabled(w.c, Submit(i, command))
    ensures var a := Submit(i, command); NodeKeeps(Record(w.c, w.h, a), i, Do(w.c, a).nodes[i].raft)
  {
    var a := Submit(i, command);
    var s := w.c.nodes[i].raft;
    var log' := Do(w.c, a).nodes[i].raft.log;
    var h' := Record(w.c, w.h, a);
    ExtendsStep(w, a);
    assert NodeOK(|w.c.nodes|, w.h, i, w.c.nodes[i]);
    assert NodeKeeps(w.h, i, s);
    forall term: nat, k: nat {:trigger Acked(h', i, term, k)} | Acked(h', i, term, k)
      ensures (Acked(w.h, i, term, k) && term <= s.currentTerm) || UpTo(h', term, k) <= log'
    {
      if term == s.currentTerm {
        assert h'.reigns[term].log == log';
      } else {
        AckedInPast(w, i, term, k);
      }
    }
    KeepsMoves(w.h, h', i, s.log, s.currentTerm + 1, log', s.currentTerm + 1);
  }

  // A receiver keeps what the new leader also has; anything else that leader has abandoned.
  lemma KeptOrAbandoned(w: World, m: Message, term: nat, k: nat)
    requires LogInv(w) && Enabled(w.c, HandleAppend(m)) && Guarded(w, HandleAppend(m))
    requires AnswerAppend(w.c.nodes[m.to].raft, m.append).1.success
    requires Acked(w.h, m.to, term, k) && UpTo(w.h, term, k) <= w.c.nodes[m.to].raft.log
    ensures var log' := AnswerAppend(w.c.nodes[m.to].raft, m.append).0.log;
            UpTo(w.h, term, k) <= log' || Abandoned(w.h, UpTo(w.h, term, k), term, m.append.term + 1)
  {
    var p := UpTo(w.h, term, k);
    Accepted(w, m);
    AckedInPast(w, m.to, term, k);
    var r := w.h.reigns[m.append.term];
    assert ReignOK(w.h, m.append.term);
    if term < m.append.term && p <= r.initial {
      assert p <= r.log[..m.append.End() + 1];
    }
  }

  lemma ReceiverGivesUp(w: World, m: Message)
    requires LogInv(w) && Enabled(w.c, HandleAppend(m)) && Guarded(w, HandleAppend(m))
    requires AnswerAppend(w.c.nodes[m.to].raft, m.append).1.success
    ensures var h' := Record(w.c, w.h, HandleAppend(m)); var s := w.c.nodes[m.to].raft;
            forall term: nat, k: nat {:trigger Acked(w.h, m.to, term, k)} ::
              Acked(w.h, m.to, term, k) && UpTo(w.h, term, k) <= s.log ==>
              UpTo(w.h, term, k) <= AnswerAppend(s, m.append).0.log
              || Abandoned(h', UpTo(w.h, term, k), term, m.append.term + 1)
  {
    var h' := Record(w.c, w.h, HandleAppend(m));
    ExtendsStep(w, HandleAppend(m));
    forall term: nat, k: nat {:trigger Acked(w.h, m.to, term, k)}
      | Acked(w.h, m.to, term, k) && UpTo(w.h, term, k) <= w.c.nodes[m.to].raft.log
      ensures UpTo(w.h, term, k) <= AnswerAppend(w.c.nodes[m.to].raft, m.append).0.log
              || Abandoned(h', UpTo(w.h, term, k), term, m.append.term + 1)
    {
      KeptOrAbandoned(w, m, term, k);
      if Abandoned(w.h, UpTo(w.h, term, k), term, m.append.term + 1) {
        AbandonedExtends(w.h, h', UpTo(w.h, term, k), term, m.append.term + 1, m.append.term + 1);
      }
    }
  }

  lemma ReceiverKeeps(w: World, m: Message)
    requires LogInv(w) && Enabled(w.c, HandleAppend(m)) && Guarded(w, HandleAppend(m))
    requires AnswerAppend(w.c.nodes[m.to].raft, m.append).1.success
    ensures var a := HandleAppend(m); NodeKeeps(Record(w.c, w.h, a), m.to, Do(w.c, a).nodes[m.to].raft)
  {
    var s, s' := w.c.nodes[m.to].raft, AnswerAppend(w.c.nodes[m.to].raft, m.append).0;
    var h' := Record(w.c, w.h, HandleAppend(m));
    ExtendsStep(w, HandleAppend(m));
    Accepted(w, m);
    assert NodeKeeps(w.h, m.to, s);
    forall term: nat, k: nat {:trigger Acked(h', m.to, term, k)} | Acked(h', m.to, term, k)
      ensures (Acked(w.h, m.to, term, k) && term <= s.currentTerm) || UpTo(h', term, k) <= s'.log
    {
      if term == m.append.term && k <= m.append.End() {
        assert h'.reigns[term].log[..k + 1] == h'.reigns[term].log[..m.append.End() + 1][..k + 1];
      } else {
        assert Acked(w.h, m.to, term, k);
        AckedInPast(w, m.to, term, k);
      }
    }
    ReceiverGivesUp(w, m);
    KeepsMoves(w.h, h', m.to, s.log, s.currentTerm + 1, s'.log, s'.currentTerm + 1);
  }

  lemma ActorKeeps(w: World, a: Action)
    requires LogInv(w) && Enabled(w.c, a) && Guarded(w, a) && Actor(a) < |w.c.nodes| == |Do(w.c, a).nodes|
    ensures NodeKeeps(Record(w.c, w.h, a), Actor(a), Do(w.c, a).nodes[Actor(a)].raft)
  {
    if Still(w.c, a) {
      StillKeeps(w, a);
    } else if a.HandleVoteReply? {
      WinnerKeeps(w, a.m);
    } else if a.Submit? {
      ProposerKeeps(w, a.i, a.command);
    } else {
      ReceiverKeeps(w, a.m);
    }
  }

  lemma NodesKeepStep(w: World, a: Action)
    requires LogInv(w) && Enabled(w.c, a) && Guarded(w, a)
    ensures NodesKeep(Do(w.c, a), Record(w.c, w.h, a))
  {
    var w' := Step(w, a);
    TermsKept(w.c, a);
    forall v | 0 <= v < |w'.c.nodes|
      ensures NodeKeeps(w'.h, v, w'.c.nodes[v].raft)
    {
      if v == Actor(a) {
        ActorKeeps(w, a);
      } else {
        BystanderStep(w, a, v);
        assert NodeKeeps(w.h, v, w.c.nodes[v].raft);
        KeepsUnmoved(w, a, v, w.c.nodes[v].raft.log, w.c.nodes[v].raft.currentTerm + 1);
      }
    }
  }

  /// ## What voters keep

  // A log that is at least as up to date as one holding p holds p as well, unless a leader
  // between the term of p and the candidate's own took office without it.
  lemma UpToDateHolds(h: History, term: nat, k: nat, log: seq<Entry>, candidate: seq<Entry>, bound: nat)
    requires ReignsOK(h) && LogOK(h, log) && LogOK(h, candidate)
    requires term in h.reigns && |h.reigns[term].initial| <= k < |h.reigns[term].log| && UpTo(h, term, k) <= log
    requires forall j :: 0 <= j < |candidate| ==> candidate[j].term < bound
    requires var mine, theirs := log[|log| - 1].term, candidate[|candidate| - 1].term;
             theirs > mine || (theirs == mine && |candidate| >= |log|)
    ensures UpTo(h, term, k) <= candidate || Abandoned(h, UpTo(h, term, k), term, bound)
  {
    var p := UpTo(h, term, k);
    assert ReignOK(h, term);
    assert log[k] == p[k] && p[k].term == term;
    LogSorted(h, log);
    var mine, theirs := log[|log| - 1].term, candidate[|candidate| - 1].term;
    assert mine >= term >= 1;
    assert candidate[0] == DUMMY;
    assert EntryOK(h, candidate, |candidate| - 1) && EntryOK(h, log, |log| - 1);
    assert candidate[..|candidate|] == candidate && log[..|log|] == log;
    assert ReignOK(h, theirs);
    if theirs > mine && !(p <= h.reigns[theirs].initial) {
      assert term < theirs < bound;
    }
  }

  // A peer that grants its vote gives up nothing in favour of a candidate that lacks it.
  lemma GrantKeeps(w: World, m: Message)
    requires LogInv(w) && Enabled(w.c, HandleVote(m))
    requires AnswerVote(w.c.nodes[m.to].raft, m.vote).1.voteGranted && m.vote.term !in w.h.reigns
    ensures (m.vote.candidateId, m.vote.term) in w.h.candidates
    ensures Keeps(w.h, m.to, w.h.candidates[(m.vote.candidateId, m.vote.term)], m.vote.term)
  {
    var s := w.c.nodes[m.to].raft;
    assert MessageOK(w.h, w.c.sends, m);
    assert NodeOK(|w.c.nodes|, w.h, m.to, w.c.nodes[m.to]);
    assert NodeKeeps(w.h, m.to, s);
    assert CandidateOK(w.h, m.vote.candidateId, m.vote.term);
    var log := w.h.candidates[(m.vote.candidateId, m.vote.term)];
    forall term: nat, k: nat | Acked(w.h, m.to, term, k) && term < m.vote.term
      ensures UpTo(w.h, term, k) <= log || Abandoned(w.h, UpTo(w.h, term, k), term, m.vote.term)
    {
      AckedInPast(w, m.to, term, k);
      if UpTo(w.h, term, k) <= s.log {
        UpToDateHolds(w.h, term, k, s.log, log, m.vote.term);
      } else {
        AbandonedEarlier(w.h, UpTo(w.h, term, k), term, s.currentTerm + 1, m.vote.term);
      }
    }
  }

  lemma AbandonedEarlier(h: History, p: seq<Entry>, term: nat, bound: nat, bound': nat)
    requires Abandoned(h, p, term, bound) && bound <= bound' + 1 && bound' !in h.reigns
    ensures Abandoned(h, p, term, bound')
  {
    var t: nat :| term < t < bound && t in h.reigns && !(p <= h.reigns[t].initial);
    assert t < bound';
  }

  lemma OldVoterKeeps(w: World, a: Action, v: nat, term: nat)
    requires LogInv(w) && Enabled(w.c, a) && (v, term) in w.h.votes
    requires Voted(Record(w.c, w.h, a), v, term, w.h.votes[(v, term)])
    ensures VoterKeeps(Record(w.c, w.h, a), v, term)
  {
    ExtendsStep(w, a);
    assert VoterKeeps(w.h, v, term);
    if term !in w.h.reigns {
      KeepsUnmoved(w, a, v, w.h.candidates[(w.h.votes[(v, term)], term)], term);
    }
  }

  lemma NewVoterKeeps(w: World, a: Action, v: nat, term: nat)
    requires LogInv(w) && Enabled(w.c, a)
    requires (v, term) !in w.h.votes && (v, term) in Record(w.c, w.h, a).votes
    ensures VoterKeeps(Record(w.c, w.h, a), v, term)
  {
    var h' := Record(w.c, w.h, a);
    match a
    case StartElection(i) =>
      assert NodeKeeps(w.h, i, w.c.nodes[i].raft);
      ExtendsStep(w, a);
      KeepsMoves(w.h, h', i, w.c.nodes[i].raft.log, term, w.c.nodes[i].raft.log, term);
    case HandleVote(m) =>
      assert MessageOK(w.h, w.c.sends, m);
      ExtendsStep(w, a);
      if term !in w.h.reigns {
        GrantKeeps(w, m);
        var log := w.h.candidates[(m.vote.candidateId, term)];
        KeepsMoves(w.h, h', v, log, term, log, term);
      }
  }

  lemma VotersKeepStep(w: World, a: Action)
    requires LogInv(w) && Enabled(w.c, a)
    ensures VotersKeep(Record(w.c, w.h, a))
  {
    var h' := Record(w.c, w.h, a);
    VotesOnlyAdded(w, a);
    forall v, term | (v, term) in h'.votes
      ensures VoterKeeps(h', v, term)
    {
      if (v, term) in w.h.votes {
        assert Voted(w.h, v, term, w.h.votes[(v, term)]);
        OldVoterKeeps(w, a, v, term);
      } else {
        NewVoterKeeps(w, a, v, term);
      }
    }
  }

  /// ## What leaders keep

  lemma OldReignKeeps(w: World, a: Action, term: nat)
    requires LogInv(w) && Enabled(w.c, a) && term in w.h.reigns
    ensures term in Record(w.c, w.h, a).reigns && ReignKeeps(Record(w.c, w.h, a), term)
  {
    var h' := Record(w.c, w.h, a);
    ExtendsStep(w, a);
    assert ReignKeeps(w.h, term) && ReignElected(w.c, w.h, term);
    forall v | v in h'.reigns[term].quorum
      ensures Keeps(h', v, h'.reigns[term].initial, term)
    {
      assert Voted(w.h, v, term, w.h.reigns[term].leader);
      assert Keeps(w.h, v, w.h.reigns[term].initial, term);
      KeepsUnmoved(w, a, v, w.h.reigns[term].initial, term);
    }
  }

  lemma NewReignKeeps(w: World, m: Message)
    requires LogInv(w) && Enabled(w.c, HandleVoteReply(m)) && Wins(w.c, m)
    ensures ReignKeeps(Record(w.c, w.h, HandleVoteReply(m)), m.vote.term)
  {
    var a := HandleVoteReply(m);
    var h' := Record(w.c, w.h, a);
    var i := m.vote.candidateId;
    WinnerIsFirst(w, m);
    WinnerHasMajority(w, m);
    assert NodeOK(|w.c.nodes|, w.h, i, w.c.nodes[i]);
    forall v | v in h'.reigns[m.vote.term].quorum
      ensures Keeps(h', v, h'.reigns[m.vote.term].initial, m.vote.term)
    {
      assert v in Quorum(w.c, m);
      assert VoterKeeps(w.h, v, m.vote.term);
      KeepsUnmoved(w, a, v, w.c.nodes[i].raft.log, m.vote.term);
    }
  }

  lemma ReignsKeepStep(w: World, a: Action)
    requires LogInv(w) && Enabled(w.c, a)
    ensures ReignsKeep(Record(w.c, w.h, a))
  {
    var h' := Record(w.c, w.h, a);
    forall term | term in h'.reigns
      ensures ReignKeeps(h', term)
    {
      if term in w.h.reigns {
        OldReignKeeps(w, a, term);
      } else {
        NewReignKeeps(w, a.m);
      }
    }
  }

  /// ## What is committed

  // The leader's rule commits only what a majority has acknowledged in the leader's own term.
  lemma LeaderCommits(w: World, i: nat)
    requires LogInv(w) && Enabled(w.c, Commit(i))
    requires AdvanceCommit(w.c.nodes[i].raft, i) != w.c.nodes[i].raft
    ensures Committed(|w.c.nodes|, w.h, w.c.nodes[i].raft.currentTerm, AdvanceCommit(w.c.nodes[i].raft, i).commitIndex)
  {
    var n := |w.c.nodes|;
    var s := w.c.nodes[i].raft;
    var matched := Matched(s, i);
    var k := Median(matched);
    assert NodeOK(n, w.h, i, w.c.nodes[i]);
    assert ReignOK(w.h, s.currentTerm);
    MedianIsQuorumIndex(matched, k);
    var q := AtLeast(matched, k);
    forall v | v in q
      ensures v < n && Acked(w.h, v, s.currentTerm, k)
    {
      assert v != i ==> matched[v] == s.matchIndex[v];
      assert 1 <= k <= Ack(w.h, v, s.currentTerm);
    }
    assert AckQuorum(n, w.h, s.currentTerm, k, q);
  }

  lemma LeaderCommitOK(w: World, i: nat)
    requires LogInv(w) && Enabled(w.c, Commit(i))
    ensures NodeShape(|w.c.nodes|, AdvanceCommit(w.c.nodes[i].raft, i))
    ensures NodeCommitOK(|w.c.nodes|, w.h, AdvanceCommit(w.c.nodes[i].raft, i))
  {
    var s := w.c.nodes[i].raft;
    assert NodeCommitOK(|w.c.nodes|, w.h, s);
    assert NodeOK(|w.c.nodes|, w.h, i, w.c.nodes[i]);
    if AdvanceCommit(s, i) != s {
      LeaderCommits(w, i);
      var k := AdvanceCommit(s, i).commitIndex;
      assert CommittedBy(|w.c.nodes|, w.h, s.log[..k + 1], s.currentTerm, k);
    }
  }

  // What a receiver newly commits lies within the part of its log that came from the sender.
  lemma AdvancedCommitOK(n: nat, h: History, s': Server, args: AppendArgs)
    requires RequestCommitOK(n, h, args) && s'.currentTerm == args.term
    requires s'.commitIndex <= args.leaderCommit <= args.End() < |h.reigns[args.term].log|
    requires h.reigns[args.term].log[..args.End() + 1] <= s'.log
    ensures NodeCommitOK(n, h, s')
  {
    var r := h.reigns[args.term].log;
    assert s'.log[..s'.commitIndex + 1] == r[..args.End() + 1][..s'.commitIndex + 1];
    SettledPrefix(n, h, UpTo(h, args.term, args.leaderCommit), s'.log[..s'.commitIndex + 1], args.term);
  }

  lemma KeptCommitOK(n: nat, h: History, s: Server, s': Server)
    requires s.commitIndex < |s.log| && NodeCommitOK(n, h, s) && s.currentTerm <= s'.currentTerm
    requires s'.commitIndex == s.commitIndex < |s'.log| && s'.log[..s.commitIndex + 1] == s.log[..s.commitIndex + 1]
    ensures NodeCommitOK(n, h, s')
  {
    SettledExtends(n, h, h, s.log[..s.commitIndex + 1], s.currentTerm, s'.currentTerm);
  }

  lemma ReceiverCommitOK(w: World, m: Message)
    requires LogInv(w) && Enabled(w.c, HandleAppend(m))
    requires NodeShape(|w.c.nodes|, AnswerAppend(w.c.nodes[m.to].raft, m.append).0)
    ensures NodeCommitOK(|w.c.nodes|, w.h, AnswerAppend(w.c.nodes[m.to].raft, m.append).0)
  {
    var n := |w.c.nodes|;
    var s := w.c.nodes[m.to].raft;
    CommittedPrefixStays(n, s, m.append);
    if AnswerAppend(s, m.append).0.commitIndex == s.commitIndex {
      assert NodeCommitOK(n, w.h, s);
      AppendShape(n, s, m.append);
      KeptCommitOK(n, w.h, s, AnswerAppend(s, m.append).0);
    } else {
      Accepted(w, m);
      assert RequestCommitOK(n, w.h, m.append) && MessageOK(w.h, w.c.sends, m);
      AdvancedCommitOK(n, w.h, AnswerAppend(s, m.append).0, m.append);
    }
  }

  lemma RestartCommitOK(w: World, i: nat)
    requires LogInv(w) && Enabled(w.c, Crash(i))
    requires NodeShape(|w.c.nodes|, Do(w.c, Crash(i)).nodes[i].raft)
    ensures NodeCommitOK(|w.c.nodes|, w.h, Do(w.c, Crash(i)).nodes[i].raft)
  {
    assert NodeOK(|w.c.nodes|, w.h, i, w.c.nodes[i]);
    assert Do(w.c, Crash(i)).nodes[i].raft.log[..1] == [DUMMY];
  }

  lemma UntouchedCommitOK(w: World, a: Action)
    requires LogInv(w) && Enabled(w.c, a) && Actor(a) < |w.c.nodes| == |Do(w.c, a).nodes|
    requires !a.HandleAppend? && !a.Commit? && !a.Crash?
    ensures NodeShape(|w.c.nodes|, Do(w.c, a).nodes[Actor(a)].raft)
    ensures NodeCommitOK(|w.c.nodes|, w.h, Do(w.c, a).nodes[Actor(a)].raft)
  {
    assert NodeCommitOK(|w.c.nodes|, w.h, w.c.nodes[Actor(a)].raft);
    TermsKept(w.c, a);
    NodesShaped(w.c, a, Actor(a));
    LogOnlyGrows(w.c, a);
    KeptCommitOK(|w.c.nodes|, w.h, w.c.nodes[Actor(a)].raft, Do(w.c, a).nodes[Actor(a)].raft);
  }

  lemma ActorCommitOK(w: World, a: Action)
    requires LogInv(w) && Enabled(w.c, a) && Actor(a) < |w.c.nodes| == |Do(w.c, a).nodes|
    requires NodeShape(|w.c.nodes|, Do(w.c, a).nodes[Actor(a)].raft)
    ensures NodeCommitOK(|w.c.nodes|, w.h, Do(w.c, a).nodes[Actor(a)].raft)
  {
    match a
    case HandleAppend(m) => ReceiverCommitOK(w, m);
    case Commit(i) => LeaderCommitOK(w, i);
    case Crash(i) => RestartCommitOK(w, i);
    case _ => UntouchedCommitOK(w, a);
  }

  // Only AppendEntries and a crash do anything to a log but add to it.
  lemma LogOnlyGrows(c: Cluster, a: Action)
    requires Shape(c) && Enabled(c, a) && Actor(a) < |c.nodes| == |Do(c, a).nodes|
    requires !a.HandleAppend? && !a.Crash?
    ensures var node, node' := c.nodes[Actor(a)], Do(c, a).nodes[Actor(a)];
            var s, s' := node.raft, node'.raft;
            && s.log <= s'.log
            && (!a.Commit? ==> s'.commitIndex == s.commitIndex)
            && (!a.Apply? ==> s'.lastApplied == s.lastApplied && node'.delivered == node.delivered)
  {
  }

  lemma DeliveredKept(node: Node, node': Node, upto: nat)
    requires node.raft.lastApplied <= upto < |node.raft.log| && upto < |node'.raft.log|
    requires node'.raft.log[..upto + 1] == node.raft.log[..upto + 1]
    requires node'.raft.lastApplied == node.raft.lastApplied && node'.delivered == node.delivered
    requires NodeDelivered(node)
    ensures NodeDelivered(node')
  {
    var k := node.raft.lastApplied + 1;
    assert node'.raft.log[..k] == node'.raft.log[..upto + 1][..k];
    assert node.raft.log[..k] == node.raft.log[..upto + 1][..k];
  }

  lemma ApplyDelivered(c: Cluster, i: nat)
    requires Shape(c) && Enabled(c, Apply(i)) && c.nodes[i].raft.lastApplied < |c.nodes[i].raft.log|
    requires NodeDelivered(c.nodes[i])
    ensures Do(c, Apply(i)).nodes[i].raft.lastApplied < |c.nodes[i].raft.log|
    ensures NodeDelivered(Do(c, Apply(i)).nodes[i])
  {
    var s := c.nodes[i].raft;
    assert Commands(s.log[..s.lastApplied + 2]) == Commands(s.log[..s.lastApplied + 1]) + [Deliver(s).1];
  }

  lemma ReceiverDelivered(c: Cluster, m: Message)
    requires Shape(c) && Enabled(c, HandleAppend(m)) && c.nodes[m.to].raft.lastApplied < |c.nodes[m.to].raft.log|
    requires NodeDelivered(c.nodes[m.to]) && m.to < |Do(c, HandleAppend(m)).nodes|
    ensures var node' := Do(c, HandleAppend(m)).nodes[m.to];
            node'.raft.lastApplied < |node'.raft.log| && NodeDelivered(node')
  {
    assert NodeShape(|c.nodes|, c.nodes[m.to].raft);
    CommittedPrefixStays(|c.nodes|, c.nodes[m.to].raft, m.append);
    DeliveredKept(c.nodes[m.to], Do(c, HandleAppend(m)).nodes[m.to], c.nodes[m.to].raft.commitIndex);
  }

  lemma OtherDelivered(c: Cluster, a: Action)
    requires Shape(c) && Enabled(c, a) && Actor(a) < |c.nodes| == |Do(c, a).nodes|
    requires !a.HandleAppend? && !a.Apply?
    requires c.nodes[Actor(a)].raft.lastApplied < |c.nodes[Actor(a)].raft.log| && NodeDelivered(c.nodes[Actor(a)])
    ensures var node' := Do(c, a).nodes[Actor(a)];
            node'.raft.lastApplied < |node'.raft.log| && NodeDelivered(node')
  {
    if a.Crash? {
      assert Do(c, a).nodes[Actor(a)].delivered == [] == Commands(Do(c, a).nodes[Actor(a)].raft.log[..1]);
    } else {
      LogOnlyGrows(c, a);
      DeliveredKept(c.nodes[Actor(a)], Do(c, a).nodes[Actor(a)], c.nodes[Actor(a)].raft.lastApplied);
    }
  }

  // Delivery follows the log, and what has been delivered stays in it.
  lemma ActorDelivered(c: Cluster, a: Action)
    requires Shape(c) && Enabled(c, a) && Actor(a) < |c.nodes| == |Do(c, a).nodes|
    requires c.nodes[Actor(a)].raft.lastApplied < |c.nodes[Actor(a)].raft.log| && NodeDelivered(c.nodes[Actor(a)])
    ensures var node' := Do(c, a).nodes[Actor(a)];
            node'.raft.lastApplied < |node'.raft.log| && NodeDelivered(node')
  {
    match a
    case HandleAppend(m) => ReceiverDelivered(c, m);
    case Apply(i) => ApplyDelivered(c, i);
    case _ => OtherDelivered(c, a);
  }

  lemma NodeCommitExtends(n: nat, h: History, h': History, s: Server)
    requires Extends(h, h') && s.commitIndex < |s.log| && NodeCommitOK(n, h, s)
    ensures NodeCommitOK(n, h', s)
  {
    SettledExtends(n, h, h', s.log[..s.commitIndex + 1], s.currentTerm, s.currentTerm);
  }

  lemma NodeCommitStep(w: World, a: Action, i: nat)
    requires LogInv(w) && Enabled(w.c, a) && i < |w.c.nodes| == |Do(w.c, a).nodes|
    requires NodeShape(|w.c.nodes|, Do(w.c, a).nodes[i].raft)
    ensures NodeCommitOK(|w.c.nodes|, Record(w.c, w.h, a), Do(w.c, a).nodes[i].raft)
  {
    if i == Actor(a) {
      ActorCommitOK(w, a);
    } else {
      BystanderStep(w, a, i);
      assert NodeCommitOK(|w.c.nodes|, w.h, w.c.nodes[i].raft);
    }
    ExtendsStep(w, a);
    NodeCommitExtends(|w.c.nodes|, w.h, Record(w.c, w.h, a), Do(w.c, a).nodes[i].raft);
  }

  lemma NodeDeliveredStep(c: Cluster, a: Action, i: nat)
    requires Shape(c) && Enabled(c, a) && i < |c.nodes| == |Do(c, a).nodes|
    requires c.nodes[i].raft.lastApplied < |c.nodes[i].raft.log| && NodeDelivered(c.nodes[i])
    ensures Do(c, a).nodes[i].raft.lastApplied < |Do(c, a).nodes[i].raft.log|
    ensures NodeDelivered(Do(c, a).nodes[i])
  {
    if i == Actor(a) {
      ActorDelivered(c, a);
    } else {
      BystanderSame(c, a, i);
    }
  }

  lemma CommitsOKStep(w: World, a: Action)
    requires LogInv(w) && Enabled(w.c, a) && Shape(Do(w.c, a))
    ensures CommitsOK(Do(w.c, a), Record(w.c, w.h, a))
  {
    var w' := Step(w, a);
    TermsKept(w.c, a);
    forall i | 0 <= i < |w'.c.nodes|
      ensures NodeCommitOK(|w.c.nodes|, w'.h, w'.c.nodes[i].raft) && NodeDelivered(w'.c.nodes[i])
    {
      NodeCommitStep(w, a, i);
      assert NodeShape(|w.c.nodes|, w.c.nodes[i].raft) && NodeDelivered(w.c.nodes[i]);
      NodeDeliveredStep(w.c, a, i);
    }
  }

  lemma RequestsCommitOKStep(w: World, a: Action)
    requires LogInv(w) && Enabled(w.c, a)
    ensures RequestsCommitOK(Do(w.c, a), Record(w.c, w.h, a))
  {
    var w' := Step(w, a);
    var n := |w.c.nodes|;
    TermsKept(w.c, a);
    ExtendsStep(w, a);
    forall m | m in w'.c.net && m.AppendRequest?
      ensures RequestCommitOK(n, w'.h, m.append)
    {
      if m in w.c.net {
        assert RequestCommitOK(n, w.h, m.append);
        assert UpTo(w'.h, m.append.term, m.append.leaderCommit) == UpTo(w.h, m.append.term, m.append.leaderCommit);
        SettledExtends(n, w.h, w'.h, UpTo(w.h, m.append.term, m.append.leaderCommit), m.append.term, m.append.term);
      } else {
        SenderCommitOK(w, a, m);
      }
    }
  }

  lemma SenderCommitOK(w: World, a: Action, m: Message)
    requires LogInv(w) && Enabled(w.c, a) && m in Do(w.c, a).net && m !in w.c.net && m.AppendRequest?
    ensures RequestCommitOK(|w.c.nodes|, Record(w.c, w.h, a), m.append)
  {
    var s := w.c.nodes[a.i].raft;
    assert NodeOK(|w.c.nodes|, w.h, a.i, w.c.nodes[a.i]);
    assert NodeCommitOK(|w.c.nodes|, w.h, s);
    ReplicatorIndex(w, a.i, a.peer);
  }

  /// ## Every guarded run

  lemma LogInvStep(w: World, a: Action)
    requires LogInv(w) && Enabled(w.c, a) && Guarded(w, a)
    ensures LogInv(Step(w, a))
  {
    ElectionStep(w, a);
    ReignsOKStep(w, a);
    CandidatesOKStep(w, a);
    AcksOKStep(w, a);
    NodesOKStep(w, a);
    NetOKStep(w, a);
    NodesKeepStep(w, a);
    VotersKeepStep(w, a);
    ReignsKeepStep(w, a);
    CommitsOKStep(w, a);
    RequestsCommitOKStep(w, a);
  }

  lemma StartLogInv(n: nat)
    requires n >= 1 && Legal(n, [])
    ensures LogInv(Exec(n, []))
  {
    var w := Exec(n, []);
    RunElectionInv(n, []);
    forall i | 0 <= i < n
      ensures NodeOK(n, w.h, i, w.c.nodes[i])
      ensures NodeCommitOK(n, w.h, w.c.nodes[i].raft) && NodeDelivered(w.c.nodes[i])
      ensures NodeKeeps(w.h, i, w.c.nodes[i].raft)
    {
      assert w.c.nodes[i] == Node(Boot(), NoElection, []);
      assert w.c.nodes[i].raft.log[..1] == [DUMMY];
    }
  }

  lemma {:induction false} RunLogInv(n: nat, run: seq<Action>)
    requires n >= 1 && LegalGuarded(n, run)
    ensures LogInv(Exec(n, run))
    decreases |run|
  {
    if run == [] {
      StartLogInv(n);
    } else {
      RunLogInv(n, run[..|run| - 1]);
      LogInvStep(Exec(n, run[..|run| - 1]), run[|run| - 1]);
    }
  }
}
