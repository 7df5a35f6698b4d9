/** Every step of a guarded run keeps the log invariant: history, peers and messages. */
module RaftSteps {
  import opened RaftTypes
  import opened RaftCluster
  import opened RaftElection
  import opened RaftLog
  import opened RaftRetain

  /// ## The history

  lemma CandidatesPast(w: World, i: nat, term: nat)
    requires ElectionInv(w) && CandidatesOK(w.h) && (i, term) in w.h.candidates
    ensures i < |w.c.nodes| && term <= w.c.nodes[i].raft.currentTerm
  {
    assert CandidateOK(w.h, i, term);
  }

  lemma SubmitExtends(w: World, i: nat, command: Command)
    requires ElectionInv(w) && AcksOK(w.c, w.h) && NodesOK(w.c, w.h) && Enabled(w.c, Submit(i, command))
    ensures Extends(w.h, Step(w, Submit(i, command)).h)
  {
    assert NodeOK(|w.c.nodes|, w.h, i, w.c.nodes[i]);
  }

  lemma WinExtends(w: World, m: Message)
    requires ElectionInv(w) && AcksOK(w.c, w.h) && Enabled(w.c, HandleVoteReply(m))
    ensures Extends(w.h, Step(w, HandleVoteReply(m)).h)
  {
    if Wins(w.c, m) {
      WinnerIsFirst(w, m);
    }
  }

  // A step adds to the history; it never takes back a leader, a candidacy or an acknowledgement.
  lemma ExtendsStep(w: World, a: Action)
    requires ElectionInv(w) && HistoryOK(w.h) && AcksOK(w.c, w.h) && NodesOK(w.c, w.h) && Enabled(w.c, a)
    ensures Extends(w.h, Step(w, a).h)
  {
    match a
    case HandleVoteReply(m) => WinExtends(w, m);
    case Submit(i, command) => SubmitExtends(w, i, command);
    case StartElection(i) =>
      if (i, w.c.nodes[i].raft.currentTerm + 1) in w.h.candidates {
        CandidatesPast(w, i, w.c.nodes[i].raft.currentTerm + 1);
      }
    case _ =>
  }

  lemma WinnerReignOK(w: World, m: Message)
    requires ElectionInv(w) && HistoryOK(w.h) && AcksOK(w.c, w.h) && NodesOK(w.c, w.h)
    requires Enabled(w.c, HandleVoteReply(m)) && Wins(w.c, m)
    ensures ReignOK(Step(w, HandleVoteReply(m)).h, m.vote.term)
  {
    var i := m.vote.candidateId;
    var s := w.c.nodes[i].raft;
    assert NodeOK(|w.c.nodes|, w.h, i, w.c.nodes[i]);
    WinnerIsFirst(w, m);
    assert CandidateOK(w.h, i, m.vote.term);
    ExtendsStep(w, HandleVoteReply(m));
    LogOKExtends(w.h, Step(w, HandleVoteReply(m)).h, s.log);
    assert s.log[0].term < m.vote.term;
  }

  lemma ProposedReignOK(w: World, i: nat, command: Command)
    requires ElectionInv(w) && HistoryOK(w.h) && AcksOK(w.c, w.h) && NodesOK(w.c, w.h)
    requires Enabled(w.c, Submit(i, command))
    ensures ReignOK(Step(w, Submit(i, command)).h, w.c.nodes[i].raft.currentTerm)
  {
    var s := w.c.nodes[i].raft;
    var h' := Step(w, Submit(i, command)).h;
    assert NodeOK(|w.c.nodes|, w.h, i, w.c.nodes[i]);
    ExtendsStep(w, Submit(i, command));
    assert ReignOK(w.h, s.currentTerm);
    var log := Propose(s, command).log;
    forall k | 1 <= k < |log|
      ensures EntryOK(h', log, k)
    {
      if k < |s.log| {
        assert EntryOK(w.h, s.log, k);
        assert log[..k + 1] == s.log[..k + 1];
      }
    }
  }

  lemma ReignOKExtends(h: History, h': History, term: nat)
    requires Extends(h, h') && term in h.reigns && ReignOK(h, term) && h'.reigns[term] == h.reigns[term]
    ensures ReignOK(h', term)
  {
    LogOKExtends(h, h', h.reigns[term].log);
  }

  lemma ReignsOKStep(w: World, a: Action)
    requires ElectionInv(w) && HistoryOK(w.h) && AcksOK(w.c, w.h) && NodesOK(w.c, w.h) && Enabled(w.c, a)
    ensures ReignsOK(Step(w, a).h)
  {
    var h' := Step(w, a).h;
    ExtendsStep(w, a);
    forall term | term in h'.reigns
      ensures ReignOK(h', term)
    {
      if a.HandleVoteReply? && Wins(w.c, a.m) && term == a.m.vote.term {
        WinnerReignOK(w, a.m);
      } else if a.Submit? && term == w.c.nodes[a.i].raft.currentTerm {
        ProposedReignOK(w, a.i, a.command);
      } else {
        ReignOKExtends(w.h, h', term);
      }
    }
  }

  lemma CandidatesOKStep(w: World, a: Action)
    requires ElectionInv(w) && HistoryOK(w.h) && AcksOK(w.c, w.h) && NodesOK(w.c, w.h) && Enabled(w.c, a)
    ensures CandidatesOK(Step(w, a).h)
  {
    var h' := Step(w, a).h;
    ExtendsStep(w, a);
    VotesOnlyAdded(w, a);
    forall i, term | (i, term) in h'.candidates
      ensures CandidateOK(h', i, term)
    {
      if (i, term) in w.h.candidates {
        assert CandidateOK(w.h, i, term);
        LogOKExtends(w.h, h', w.h.candidates[(i, term)]);
      } else {
        assert NodeOK(|w.c.nodes|, w.h, i, w.c.nodes[i]);
        LogOKExtends(w.h, h', w.c.nodes[i].raft.log);
      }
    }
  }

  ghost predicate AckOK(c: Cluster, h: History, v: nat, term: nat)
    requires (v, term) in h.acks
  {
    && v < |c.nodes| && term in h.reigns
    && h.acks[(v, term)] < |h.reigns[term].log|
    && term <= c.nodes[v].raft.currentTerm
  }

  lemma HandledAckOK(w: World, m: Message)
    requires LogInv(w) && Enabled(w.c, HandleAppend(m))
    requires (m.to, m.append.term) in Record(w.c, w.h, HandleAppend(m)).acks
    ensures AckOK(Do(w.c, HandleAppend(m)), Record(w.c, w.h, HandleAppend(m)), m.to, m.append.term)
  {
    assert MessageOK(w.h, w.c.sends, m);
    AppendShape(|w.c.nodes|, w.c.nodes[m.to].raft, m.append);
  }

  lemma ProposedAckOK(w: World, i: nat, command: Command)
    requires LogInv(w) && Enabled(w.c, Submit(i, command))
    requires (i, w.c.nodes[i].raft.currentTerm) in Record(w.c, w.h, Submit(i, command)).acks
    ensures AckOK(Do(w.c, Submit(i, command)), Record(w.c, w.h, Submit(i, command)), i, w.c.nodes[i].raft.currentTerm)
  {
    assert NodeOK(|w.c.nodes|, w.h, i, w.c.nodes[i]);
  }

  lemma OldAckOK(w: World, a: Action, v: nat, term: nat)
    requires LogInv(w) && Enabled(w.c, a) && (v, term) in w.h.acks && (v, term) in Record(w.c, w.h, a).acks
    requires Record(w.c, w.h, a).acks[(v, term)] == w.h.acks[(v, term)]
    ensures AckOK(Do(w.c, a), Record(w.c, w.h, a), v, term)
  {
    ExtendsStep(w, a);
    TermsKept(w.c, a);
  }

  lemma WonAckOK(w: World, m: Message)
    requires LogInv(w) && Enabled(w.c, HandleVoteReply(m)) && Wins(w.c, m)
    ensures var a := HandleVoteReply(m);
            (m.vote.candidateId, m.vote.term) in Record(w.c, w.h, a).acks
            && AckOK(Do(w.c, a), Record(w.c, w.h, a), m.vote.candidateId, m.vote.term)
  {
    assert NodeShape(|w.c.nodes|, w.c.nodes[m.vote.candidateId].raft);
  }

  lemma AckOKStep(w: World, a: Action, v: nat, term: nat)
    requires LogInv(w) && Enabled(w.c, a) && (v, term) in Record(w.c, w.h, a).acks
    ensures AckOK(Do(w.c, a), Record(w.c, w.h, a), v, term)
  {
    if a.HandleAppend? && (v, term) == (a.m.to, a.m.append.term) {
      HandledAckOK(w, a.m);
    } else if a.Submit? && (v, term) == (a.i, w.c.nodes[a.i].raft.currentTerm) {
      ProposedAckOK(w, a.i, a.command);
    } else if a.HandleVoteReply? && Wins(w.c, a.m) && (v, term) == (a.m.vote.candidateId, a.m.vote.term) {
      WonAckOK(w, a.m);
    } else {
      OldAckOK(w, a, v, term);
    }
  }

  lemma AcksOKStep(w: World, a: Action)
    requires LogInv(w) && Enabled(w.c, a)
    ensures AcksOK(Do(w.c, a), Record(w.c, w.h, a))
  {
    forall v, term | (v, term) in Record(w.c, w.h, a).acks
      ensures AckOK(Do(w.c, a), Record(w.c, w.h, a), v, term)
    {
      AckOKStep(w, a, v, term);
    }
  }

  /// ## Peers

  // The committed prefix of a receiver is part of the sender's log.
  lemma CommitReaches(w: World, m: Message)
    requires LogInv(w) && Enabled(w.c, HandleAppend(m))
    requires w.c.nodes[m.to].raft.currentTerm <= m.append.term
    ensures m.append.term in w.h.reigns
    ensures var s := w.c.nodes[m.to].raft; s.log[..s.commitIndex + 1] <= w.h.reigns[m.append.term].log
  {
    var s := w.c.nodes[m.to].raft;
    QuorumsOf(w);
    assert MessageOK(w.h, w.c.sends, m);
    assert NodeCommitOK(|w.c.nodes|, w.h, s);
    SettledReaches(|w.c.nodes|, w.h, s.log[..s.commitIndex + 1], s.currentTerm, m.append.term);
  }

  lemma Accepted(w: World, m: Message)
    requires LogInv(w) && Enabled(w.c, HandleAppend(m))
    requires AnswerAppend(w.c.nodes[m.to].raft, m.append).1.success
    ensures m.append.term in w.h.reigns && m.append.End() < |w.h.reigns[m.append.term].log|
    ensures var s := w.c.nodes[m.to].raft; var s' := AnswerAppend(s, m.append).0; var r := w.h.reigns[m.append.term];
            && s.currentTerm <= s'.currentTerm == m.append.term
            && r.log[..m.append.End() + 1] <= s'.log
            && (s'.log == s.log || s'.log == r.log[..m.append.End() + 1])
            && |r.initial| <= m.append.End() + 1
  {
    CommitReaches(w, m);
    assert MessageOK(w.h, w.c.sends, m);
    assert NodeOK(|w.c.nodes|, w.h, m.to, w.c.nodes[m.to]);
    AcceptedLog(|w.c.nodes|, w.h, m.to, w.c.nodes[m.to].raft, m.append);
  }

  lemma RejectedUnchanged(s: Server, args: AppendArgs)
    requires s.Valid() && s.snapshotIndex <= args.prevLogIndex && !AnswerAppend(s, args).1.success
    ensures AnswerAppend(s, args).0 == s || (s.currentTerm <= args.term && AnswerAppend(s, args).0 == Follow(s, args))
  {
  }

  lemma ReceiverLogOK(w: World, m: Message)
    requires LogInv(w) && Enabled(w.c, HandleAppend(m))
    ensures var s' := AnswerAppend(w.c.nodes[m.to].raft, m.append).0;
            LogOK(w.h, s'.log) && forall k :: 0 <= k < |s'.log| ==> s'.log[k].term <= s'.currentTerm
  {
    var s := w.c.nodes[m.to].raft;
    var s' := AnswerAppend(s, m.append).0;
    assert NodeOK(|w.c.nodes|, w.h, m.to, w.c.nodes[m.to]);
    if AnswerAppend(s, m.append).1.success {
      Accepted(w, m);
      assert ReignOK(w.h, m.append.term);
      PrefixOK(w.h, w.h.reigns[m.append.term].log, m.append.End() + 1);
    } else {
      RejectedUnchanged(s, m.append);
    }
  }

  lemma ReceiverOK(w: World, m: Message)
    requires LogInv(w) && Enabled(w.c, HandleAppend(m))
    ensures NodeOK(|w.c.nodes|, w.h, m.to, Do(w.c, HandleAppend(m)).nodes[m.to])
  {
    var s := w.c.nodes[m.to].raft;
    var (s', reply) := AnswerAppend(s, m.append);
    assert NodeOK(|w.c.nodes|, w.h, m.to, w.c.nodes[m.to]);
    assert MessageOK(w.h, w.c.sends, m) && MessageShape(|w.c.nodes|, m);
    assert ElectionSound(|w.c.nodes|, w.h, m.to, w.c.nodes[m.to]);
    ReceiverLogOK(w, m);
    if s.currentTerm <= m.append.term {
      assert s'.role == Follower && s'.currentTerm == m.append.term by {
        if reply.success { Accepted(w, m); } else { RejectedUnchanged(s, m.append); }
      }
    } else {
      assert s' == s;
    }
  }

  // The history of a request only gains an acknowledgement in the receiver's new term.
  lemma ReceiverStep(w: World, m: Message)
    requires LogInv(w) && Enabled(w.c, HandleAppend(m))
    ensures var w' := Step(w, HandleAppend(m)); NodeOK(|w'.c.nodes|, w'.h, m.to, w'.c.nodes[m.to])
  {
    var w' := Step(w, HandleAppend(m));
    ReceiverOK(w, m);
    ExtendsStep(w, HandleAppend(m));
    assert MessageOK(w.h, w.c.sends, m) && MessageShape(|w.c.nodes|, m);
    assert w'.c.nodes[m.to].raft.role == Leader ==> m.append.term < w'.c.nodes[m.to].raft.currentTerm by {
      AppendShape(|w.c.nodes|, w.c.nodes[m.to].raft, m.append);
    }
    NodeOKExtends(|w.c.nodes|, w.h, w'.h, m.to, w'.c.nodes[m.to]);
  }

  lemma WinnerStep(w: World, m: Message)
    requires LogInv(w) && Enabled(w.c, HandleVoteReply(m)) && Wins(w.c, m)
    ensures var w' := Step(w, HandleVoteReply(m)); var i := m.vote.candidateId;
            NodeOK(|w'.c.nodes|, w'.h, i, w'.c.nodes[i])
  {
    var i := m.vote.candidateId;
    var w' := Step(w, HandleVoteReply(m));
    assert NodeOK(|w.c.nodes|, w.h, i, w.c.nodes[i]);
    ExtendsStep(w, HandleVoteReply(m));
    LogOKExtends(w.h, w'.h, w.c.nodes[i].raft.log);
  }

  lemma ProposerStep(w: World, i: nat, command: Command)
    requires LogInv(w) && Enabled(w.c, Submit(i, command))
    ensures var w' := Step(w, Submit(i, command)); NodeOK(|w'.c.nodes|, w'.h, i, w'.c.nodes[i])
  {
    var w' := Step(w, Submit(i, command));
    var s := w.c.nodes[i].raft;
    assert NodeOK(|w.c.nodes|, w.h, i, w.c.nodes[i]);
    ProposedReignOK(w, i, command);
    assert ReignOK(w'.h, s.currentTerm);
    assert w'.h.reigns[s.currentTerm].log == w'.c.nodes[i].raft.log;
    assert forall j :: j != i ==> Ack(w'.h, j, s.currentTerm) == Ack(w.h, j, s.currentTerm);
  }

  /// ## Fast back-up

  // In a sorted log the walk down stops at the last entry whose term is at most `term`.
  lemma {:induction false} LastAtMostIsLast(log: seq<Entry>, term: nat, hi: nat)
    requires hi < |log| && log[0].term <= term
    ensures log[LastAtMost(log, term, hi)].term <= term
    ensures forall k :: LastAtMost(log, term, hi) < k <= hi ==> log[k].term > term
  {
    if hi > 0 && log[hi].term > term {
      LastAtMostIsLast(log, term, hi - 1);
    }
  }

  // Once a log holds an entry of term t, all its entries from the start of t's reign on are of t.
  lemma TermFillsReign(h: History, log: seq<Entry>, prev: nat, last: nat)
    requires ReignsOK(h) && LogOK(h, log) && 1 <= prev <= last < |log|
    requires log[last].term in h.reigns && |h.reigns[log[last].term].initial| <= prev
    ensures log[prev].term == log[last].term
  {
    var t := log[last].term;
    assert EntryOK(h, log, last);
    assert ReignOK(h, t);
    assert log[prev] == log[..last + 1][prev];
    assert log[prev] == h.reigns[t].log[prev];
  }

  // Every hint lowers nextIndex below the index that was rejected, and never below 1.
  lemma BackUpLowers(h: History, to: nat, s: Server, args: AppendArgs, reply: AppendReply)
    requires ReignsOK(h) && LogOK(h, s.log) && RequestOK(h, to, args) && HintOK(h, args, reply)
    requires s.snapshotIndex == 0 && s.snapshotTerm == 0 && s.log == h.reigns[args.term].log
    ensures 1 <= BackUp(s, reply) <= args.prevLogIndex
  {
    if reply.xTerm != 0 {
      var last := FindLast(s, reply.xTerm);
      if args.prevLogIndex <= last && s.log[last].term == reply.xTerm {
        TermFillsReign(h, s.log, args.prevLogIndex, last);
      }
    }
  }

  // A peer that learns of a newer term has neither stood for election nor led in it.
  lemma NewTermOK(w: World, i: nat, s': Server)
    requires LogInv(w) && i < |w.c.nodes|
    requires s'.log == w.c.nodes[i].raft.log && s'.currentTerm > w.c.nodes[i].raft.currentTerm && s'.role == Follower
    ensures NodeOK(|w.c.nodes|, w.h, i, w.c.nodes[i].(raft := s'))
  {
    assert NodeOK(|w.c.nodes|, w.h, i, w.c.nodes[i]);
    if s'.currentTerm in w.h.reigns {
      assert ReignElected(w.c, w.h, s'.currentTerm);
    }
    if (i, s'.currentTerm) in w.h.candidates {
      CandidatesPast(w, i, s'.currentTerm);
    }
  }

  // A rejection of the leader's present term is a hint about its present log.
  lemma BackedUp(w: World, m: Message)
    requires LogInv(w) && Enabled(w.c, HandleAppendReply(m))
    requires var s := w.c.nodes[m.append.leaderId].raft; s.role == Leader && s.currentTerm == m.append.term
    requires !m.appendReply.success && m.appendReply.term <= m.append.term
    ensures 1 <= BackUp(w.c.nodes[m.append.leaderId].raft, m.appendReply) <= m.append.prevLogIndex
    ensures RequestOK(w.h, m.to, m.append)
  {
    var i := m.append.leaderId;
    assert NodeOK(|w.c.nodes|, w.h, i, w.c.nodes[i]);
    assert NodeShape(|w.c.nodes|, w.c.nodes[i].raft);
    assert MessageOK(w.h, w.c.sends, m);
    BackUpLowers(w.h, m.to, w.c.nodes[i].raft, m.append, m.appendReply);
  }

  // Any hint, however old, leads to an index of at least 1.
  lemma BackUpPositive(h: History, s: Server, args: AppendArgs, reply: AppendReply)
    requires HintOK(h, args, reply) && |s.log| >= 1 && s.snapshotIndex == 0 && s.snapshotTerm == 0
    ensures BackUp(s, reply) >= 1
  {
  }

  // The leader's own test is enough.
  lemma CautiousClaimsNoMore(w: World, m: Message)
    requires LogInv(w) && Enabled(w.c, HandleAppendReply(m)) && Cautious(w, m)
    ensures ClaimsNoMore(w, m)
  {
    var i := m.append.leaderId;
    var s := w.c.nodes[i].raft;
    if s.role == Leader && !m.appendReply.success && m.appendReply.term <= m.append.term {
      assert NodeOK(|w.c.nodes|, w.h, i, w.c.nodes[i]) && MessageShape(|w.c.nodes|, m);
      if s.currentTerm == m.append.term {
        BackedUp(w, m);
      }
    }
  }

  lemma StaleUsed(w: World, m: Message)
    requires LogInv(w) && Enabled(w.c, HandleAppendReply(m)) && ClaimsNoMore(w, m)
    requires w.c.nodes[m.append.leaderId].raft.role == Leader
    requires !m.appendReply.success && m.appendReply.term <= m.append.term
    ensures var i := m.append.leaderId;
            NodeOK(|w.c.nodes|, w.h, i, Do(w.c, HandleAppendReply(m)).nodes[i])
  {
    var i := m.append.leaderId;
    assert NodeOK(|w.c.nodes|, w.h, i, w.c.nodes[i]) && NodeShape(|w.c.nodes|, w.c.nodes[i].raft);
    assert MessageOK(w.h, w.c.sends, m) && MessageShape(|w.c.nodes|, m);
    BackUpPositive(w.h, w.c.nodes[i].raft, m.append, m.appendReply);
  }

  lemma ReplyUsed(w: World, m: Message)
    requires LogInv(w) && Enabled(w.c, HandleAppendReply(m)) && Guarded(w, HandleAppendReply(m))
    ensures var i := m.append.leaderId;
            NodeOK(|w.c.nodes|, w.h, i, Do(w.c, HandleAppendReply(m)).nodes[i])
  {
    var i := m.append.leaderId;
    var s := w.c.nodes[i].raft;
    assert NodeOK(|w.c.nodes|, w.h, i, w.c.nodes[i]);
    assert MessageOK(w.h, w.c.sends, m) && MessageShape(|w.c.nodes|, m);
    if s.role == Leader && !m.appendReply.success {
      if m.appendReply.term > m.append.term {
        if s.currentTerm == m.append.term {
          NewTermOK(w, i, Demote(s, m.appendReply.term));
        }
      } else {
        StaleUsed(w, m);
      }
    }
  }

  lemma VoteUsed(w: World, m: Message)
    requires LogInv(w) && Enabled(w.c, HandleVoteReply(m)) && !Wins(w.c, m)
    ensures var i := m.vote.candidateId;
            NodeOK(|w.c.nodes|, w.h, i, Do(w.c, HandleVoteReply(m)).nodes[i])
  {
    var i := m.vote.candidateId;
    var s := w.c.nodes[i].raft;
    assert NodeOK(|w.c.nodes|, w.h, i, w.c.nodes[i]);
    if s.currentTerm == w.c.nodes[i].election.term && m.voteReply.term > s.currentTerm {
      NewTermOK(w, i, Demote(s, m.voteReply.term));
    }
  }

  lemma VoterStep(w: World, m: Message)
    requires LogInv(w) && Enabled(w.c, HandleVote(m))
    ensures NodeOK(|w.c.nodes|, w.h, m.to, Do(w.c, HandleVote(m)).nodes[m.to])
  {
    var s := w.c.nodes[m.to].raft;
    var s' := AnswerVote(s, m.vote).0;
    assert NodeOK(|w.c.nodes|, w.h, m.to, w.c.nodes[m.to]);
    if s'.currentTerm > s.currentTerm {
      NewTermOK(w, m.to, s');
    }
  }

  lemma CandidateStep(w: World, i: nat)
    requires LogInv(w) && Enabled(w.c, StartElection(i))
    ensures var w' := Step(w, StartElection(i)); NodeOK(|w'.c.nodes|, w'.h, i, w'.c.nodes[i])
  {
    var w' := Step(w, StartElection(i));
    assert NodeOK(|w.c.nodes|, w.h, i, w.c.nodes[i]);
    ExtendsStep(w, StartElection(i));
    LogOKExtends(w.h, w'.h, w.c.nodes[i].raft.log);
    if w'.c.nodes[i].raft.currentTerm in w.h.reigns {
      assert ReignElected(w.c, w.h, w'.c.nodes[i].raft.currentTerm);
    }
  }

  // The steps that touch neither log nor term of the peer that takes them.
  lemma QuietStep(w: World, a: Action, i: nat)
    requires LogInv(w) && Enabled(w.c, a) && i < |w.c.nodes|
    requires a.RequestVote? || a.GiveUp? || a.Commit? || a.Apply? || a.Crash?
    ensures i < |Do(w.c, a).nodes| && NodeOK(|w.c.nodes|, w.h, i, Do(w.c, a).nodes[i])
  {
    assert NodeOK(|w.c.nodes|, w.h, i, w.c.nodes[i]);
    assert ElectionSound(|w.c.nodes|, w.h, i, w.c.nodes[i]);
  }

  lemma ReplicatorStep(w: World, i: nat, peer: nat)
    requires LogInv(w) && Enabled(w.c, Replicate(i, peer))
    ensures NodeOK(|w.c.nodes|, w.h, i, Do(w.c, Replicate(i, peer)).nodes[i])
  {
    assert NodeOK(|w.c.nodes|, w.h, i, w.c.nodes[i]);
    ReplicatorIndex(w, i, peer);
  }

  // A leader's nextIndex is never past the end of its log, so there is nothing to clip.
  lemma ReplicatorIndex(w: World, i: nat, peer: nat)
    requires LogInv(w) && i < |w.c.nodes| && peer < |w.c.nodes| && peer != i && w.c.nodes[i].raft.role == Leader
    ensures var s := w.c.nodes[i].raft;
            peer < |s.nextIndex| && 1 <= s.nextIndex[peer] <= s.LogLen() && Clip(s, peer) == s
  {
    var s := w.c.nodes[i].raft;
    assert NodeOK(|w.c.nodes|, w.h, i, w.c.nodes[i]);
    assert ReignOK(w.h, s.currentTerm);
  }

  // The peer that takes the step.
  function Actor(a: Action): nat {
    match a
    case StartElection(i) => i
    case RequestVote(i, _) => i
    case HandleVote(m) => m.to
    case HandleVoteReply(m) => if m.VoteResponse? then m.vote.candidateId else 0
    case GiveUp(i) => i
    case Submit(i, _) => i
    case Replicate(i, _) => i
    case HandleAppend(m) => m.to
    case HandleAppendReply(m) => if m.AppendResponse? then m.append.leaderId else 0
    case Commit(i) => i
    case Apply(i) => i
    case Crash(i) => i
  }

  lemma BystanderSame(c: Cluster, a: Action, i: nat)
    requires Enabled(c, a) && i < |c.nodes| && i != Actor(a)
    ensures |Do(c, a).nodes| == |c.nodes| && Do(c, a).nodes[i] == c.nodes[i]
  {
  }

  // The history gains nothing about a bystander's own leadership or candidacy.
  lemma BystanderHistory(w: World, a: Action, i: nat)
    requires LogInv(w) && Enabled(w.c, a) && i < |w.c.nodes| && i != Actor(a)
    ensures var h, h', term := w.h, Record(w.c, w.h, a), w.c.nodes[i].raft.currentTerm;
            && (term in h.reigns && h.reigns[term].leader == i ==>
                term in h'.reigns && h'.reigns[term].log == h.reigns[term].log)
            && (term in h'.reigns && term !in h.reigns ==> h'.reigns[term].leader != i)
            && ((i, term) in h'.candidates ==> (i, term) in h.candidates)
            && Ack(h', i, term) == Ack(h, i, term)
  {
    if a.Submit? && w.c.nodes[a.i].raft.currentTerm in w.h.reigns {
      assert w.h.reigns[w.c.nodes[a.i].raft.currentTerm].leader == a.i;
    }
    if a.HandleVoteReply? && Wins(w.c, a.m) {
      WinnerIsFirst(w, a.m);
    }
  }

  lemma BystanderStep(w: World, a: Action, i: nat)
    requires LogInv(w) && Enabled(w.c, a) && i < |w.c.nodes| == |Do(w.c, a).nodes| && i != Actor(a)
    ensures Do(w.c, a).nodes[i] == w.c.nodes[i]
    ensures NodeOK(|w.c.nodes|, Record(w.c, w.h, a), i, w.c.nodes[i])
  {
    BystanderSame(w.c, a, i);
    BystanderHistory(w, a, i);
    assert NodeOK(|w.c.nodes|, w.h, i, w.c.nodes[i]);
    ExtendsStep(w, a);
    NodeOKExtends(|w.c.nodes|, w.h, Record(w.c, w.h, a), i, w.c.nodes[i]);
  }

  lemma ActorStep(w: World, a: Action)
    requires LogInv(w) && Enabled(w.c, a) && Guarded(w, a) && Actor(a) < |w.c.nodes| == |Do(w.c, a).nodes|
    ensures NodeOK(|w.c.nodes|, Record(w.c, w.h, a), Actor(a), Do(w.c, a).nodes[Actor(a)])
  {
    match a
    case StartElection(i) => CandidateStep(w, i);
    case HandleVote(m) =>
      VoterStep(w, m);
      ExtendsStep(w, a);
      NodeOKExtends(|w.c.nodes|, w.h, Record(w.c, w.h, a), m.to, Do(w.c, a).nodes[m.to]);
    case HandleVoteReply(m) => if Wins(w.c, m) { WinnerStep(w, m); } else { VoteUsed(w, m); }
    case Submit(i, command) => ProposerStep(w, i, command);
    case HandleAppend(m) => ReceiverStep(w, m);
    case HandleAppendReply(m) => ReplyUsed(w, m);
    case Replicate(i, peer) => ReplicatorStep(w, i, peer);
    case _ => QuietStep(w, a, Actor(a));
  }

  lemma NodesOKStep(w: World, a: Action)
    requires LogInv(w) && Enabled(w.c, a) && Guarded(w, a)
    ensures NodesOK(Do(w.c, a), Record(w.c, w.h, a))
  {
    var w' := Step(w, a);
    TermsKept(w.c, a);
    forall i | 0 <= i < |w'.c.nodes|
      ensures NodeOK(|w'.c.nodes|, w'.h, i, w'.c.nodes[i])
    {
      if i == Actor(a) {
        ActorStep(w, a);
      } else {
        BystanderStep(w, a, i);
      }
    }
  }

  /// ## Messages

  lemma VoteRequestOK(w: World, i: nat, peer: nat)
    requires LogInv(w) && Enabled(w.c, RequestVote(i, peer))
    ensures MessageOK(w.h, w.c.sends, VoteRequest(peer, AskVote(w.c.nodes[i].raft, i)))
  {
    assert NodeOK(|w.c.nodes|, w.h, i, w.c.nodes[i]);
  }

  lemma AppendRequestOK(w: World, i: nat, peer: nat)
    requires LogInv(w) && Enabled(w.c, Replicate(i, peer))
    ensures RequestOK(w.h, peer, NextRequest(Clip(w.c.nodes[i].raft, peer), i, peer))
    ensures NextRequest(Clip(w.c.nodes[i].raft, peer), i, peer).End() + 1 == |w.c.nodes[i].raft.log|
  {
    var s := w.c.nodes[i].raft;
    ReplicatorIndex(w, i, peer);
    assert NodeOK(|w.c.nodes|, w.h, i, w.c.nodes[i]);
    assert ReignOK(w.h, s.currentTerm);
  }

  // A rejected receiver's hint names an entry it really has below prevLogIndex.
  lemma HintMade(h: History, to: nat, s: Server, args: AppendArgs)
    requires s.Valid() && s.snapshotIndex == 0 && s.snapshotTerm == 0
    requires ReignsOK(h) && LogOK(h, s.log) && RequestOK(h, to, args)
    requires args.term >= s.currentTerm && !AnswerAppend(s, args).1.success
    ensures HintOK(h, args, AnswerAppend(s, args).1)
  {
    var prev := args.prevLogIndex;
    if prev < |s.log| {
      assert ReignOK(h, args.term);
      assert prev >= 1;
      assert EntryOK(h, s.log, prev);
      assert ReignOK(h, s.log[prev].term);
    }
  }

  lemma AppendReplyOK(w: World, m: Message)
    requires LogInv(w) && Enabled(w.c, HandleAppend(m))
    ensures var w' := Step(w, HandleAppend(m));
            ReplyOK(w'.h, m.to, m.append, AnswerAppend(w.c.nodes[m.to].raft, m.append).1)
  {
    var s := w.c.nodes[m.to].raft;
    assert NodeOK(|w.c.nodes|, w.h, m.to, w.c.nodes[m.to]);
    assert MessageOK(w.h, w.c.sends, m);
    if s.currentTerm <= m.append.term && !AnswerAppend(s, m.append).1.success {
      HintMade(w.h, m.to, s, m.append);
    }
  }

  lemma NetOKStep(w: World, a: Action)
    requires LogInv(w) && Enabled(w.c, a)
    ensures NetOK(Do(w.c, a), Record(w.c, w.h, a))
  {
    var w' := Step(w, a);
    ExtendsStep(w, a);
    forall m | m in w'.c.net
      ensures MessageOK(w'.h, w'.c.sends, m)
    {
      if m in w.c.net {
        assert MessageOK(w.h, w.c.sends, m);
        MessageOKExtends(w.h, w'.h, w.c.sends, w'.c.sends, m);
      } else {
        NewMessageOK(w, a, m);
      }
    }
  }

  lemma NewMessageOK(w: World, a: Action, m: Message)
    requires LogInv(w) && Enabled(w.c, a) && m in Do(w.c, a).net && m !in w.c.net
    requires Extends(w.h, Record(w.c, w.h, a))
    ensures MessageOK(Record(w.c, w.h, a), Do(w.c, a).sends, m)
  {
    match a
    case RequestVote(i, peer) => VoteRequestOK(w, i, peer);
    case Replicate(i, peer) => AppendRequestOK(w, i, peer);
    case HandleAppend(request) =>
      AppendReplyOK(w, request);
      assert MessageOK(w.h, w.c.sends, request);
      MessageOKExtends(w.h, Record(w.c, w.h, a), w.c.sends, w.c.sends, request);
    case _ =>
  }
}
