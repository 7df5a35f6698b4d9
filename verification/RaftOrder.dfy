/** How the guards relate to the runs: they hold whenever requests are handled in send order and
    replies used in their term, and they hold throughout a run exactly when no peer ever loses an
    entry that it has acknowledged to its present leader and no leader ever expects more of a peer
    than that.
 */
module RaftOrder {
  import opened RaftTypes
  import opened RaftCluster
  import opened RaftElection
  import opened RaftLog
  import opened RaftRetain
  import opened RaftSteps
  import opened RaftKeep

  /// ## Send order is enough

  // Later requests of a term reach at least as far as earlier ones, and no request that may still
  // be handled falls short of what its receiver has already matched.
  ghost predicate Ordered(c: Cluster, h: History) {
    && (forall m1, m2 ::
          (m1 in c.net && m2 in c.net && m1.AppendRequest? && m2.AppendRequest?
           && m1.append.term == m2.append.term && m1.sendNo <= m2.sendNo)
          ==> m1.append.End() <= m2.append.End())
    && (forall m :: m in c.net && m.AppendRequest? && Handled(h, m.to, m.append.term) <= m.sendNo ==>
          Ack(h, m.to, m.append.term) <= m.append.End())
  }

  lemma OrderedStep(w: World, a: Action)
    requires LogInv(w) && Ordered(w.c, w.h) && Enabled(w.c, a) && Orderly(w, a)
    ensures Ordered(Do(w.c, a), Record(w.c, w.h, a))
  {
    match a
    case Replicate(i, peer) => OrderedReplicate(w, i, peer);
    case HandleAppend(m) => OrderedHandle(w, m);
    case Submit(i, command) => OrderedLead(w, a);
    case HandleVoteReply(m) => OrderedLead(w, a);
    case _ =>
  }

  // What the leader itself holds, or a new leader, does not concern any receiver.
  lemma OrderedLead(w: World, a: Action)
    requires LogInv(w) && Ordered(w.c, w.h) && Enabled(w.c, a) && (a.Submit? || a.HandleVoteReply?)
    ensures Ordered(Do(w.c, a), Record(w.c, w.h, a))
  {
    var w' := Step(w, a);
    if a.HandleVoteReply? && Wins(w.c, a.m) {
      WinnerIsFirst(w, a.m);
    }
    forall m | m in w'.c.net && m.AppendRequest? && Handled(w'.h, m.to, m.append.term) <= m.sendNo
      ensures Ack(w'.h, m.to, m.append.term) <= m.append.End()
    {
      assert MessageOK(w.h, w.c.sends, m) && MessageShape(|w.c.nodes|, m);
    }
  }

  lemma OrderedReplicate(w: World, i: nat, peer: nat)
    requires LogInv(w) && Ordered(w.c, w.h) && Enabled(w.c, Replicate(i, peer))
    ensures Ordered(Do(w.c, Replicate(i, peer)), w.h)
  {
    var w' := Step(w, Replicate(i, peer));
    AppendRequestOK(w, i, peer);
    assert NodeOK(|w.c.nodes|, w.h, i, w.c.nodes[i]);
    forall m | m in w.c.net && m.AppendRequest?
      ensures m.sendNo < w.c.sends
      ensures m.append.term == w.c.nodes[i].raft.currentTerm ==> m.append.End() + 1 <= |w.c.nodes[i].raft.log|
    {
      assert MessageOK(w.h, w.c.sends, m);
    }
  }

  lemma OrderedHandle(w: World, m: Message)
    requires LogInv(w) && Ordered(w.c, w.h) && Enabled(w.c, HandleAppend(m)) && Orderly(w, HandleAppend(m))
    ensures Ordered(Do(w.c, HandleAppend(m)), Record(w.c, w.h, HandleAppend(m)))
  {
    var w' := Step(w, HandleAppend(m));
    forall m1 | m1 in w'.c.net && m1.AppendRequest? && Handled(w'.h, m1.to, m1.append.term) <= m1.sendNo
      ensures Ack(w'.h, m1.to, m1.append.term) <= m1.append.End()
    {
    }
  }

  lemma OrderlyStepTested(w: World, a: Action)
    requires Ordered(w.c, w.h) && Enabled(w.c, a) && Orderly(w, a)
    ensures Tested(w, a)
  {
  }

  lemma TestedStepGuarded(w: World, a: Action)
    requires LogInv(w) && Enabled(w.c, a) && Tested(w, a)
    ensures Guarded(w, a)
  {
    if a.HandleAppendReply? {
      CautiousClaimsNoMore(w, a.m);
    }
  }

  // A leader that tests each rejection before it uses it keeps to the guard.
  lemma {:induction false} TestedIsGuarded(n: nat, run: seq<Action>)
    requires n >= 1 && LegalTested(n, run)
    ensures LegalGuarded(n, run)
    decreases |run|
  {
    if run != [] {
      var before := run[..|run| - 1];
      TestedIsGuarded(n, before);
      RunLogInv(n, before);
      TestedStepGuarded(Exec(n, before), run[|run| - 1]);
    }
  }

  lemma {:induction false} RunOrdered(n: nat, run: seq<Action>)
    requires n >= 1 && LegalOrderly(n, run)
    ensures LegalTested(n, run) && LegalGuarded(n, run) && Ordered(Exec(n, run).c, Exec(n, run).h)
    decreases |run|
  {
    if run != [] {
      var before, a := run[..|run| - 1], run[|run| - 1];
      RunOrdered(n, before);
      RunLogInv(n, before);
      OrderlyStepTested(Exec(n, before), a);
      TestedStepGuarded(Exec(n, before), a);
      OrderedStep(Exec(n, before), a);
    }
  }

  // Send order implies the guards, so every theorem about guarded runs holds of orderly ones.
  lemma OrderlyIsGuarded(n: nat, run: seq<Action>)
    requires n >= 1 && LegalOrderly(n, run)
    ensures LegalTested(n, run) && LegalGuarded(n, run)
  {
    RunOrdered(n, run);
  }

  /// ## The guards are exact

  // Peer v holds what it has acknowledged to the leader of its present term.
  ghost predicate HoldsAcked(w: World, v: nat)
    requires v < |w.c.nodes|
  {
    var s := w.c.nodes[v].raft;
    (v, s.currentTerm) in w.h.acks ==>
      && s.currentTerm in w.h.reigns
      && Ack(w.h, v, s.currentTerm) < |w.h.reigns[s.currentTerm].log|
      && w.h.reigns[s.currentTerm].log[..Ack(w.h, v, s.currentTerm) + 1] <= s.log
  }

  ghost predicate AllHoldAcked(w: World) {
    forall v {:trigger HoldsAcked(w, v)} :: 0 <= v < |w.c.nodes| ==> HoldsAcked(w, v)
  }

  // Leader i expects of no peer more than it has acknowledged, beyond the first guess.
  ghost predicate Truthful(w: World, i: nat)
    requires i < |w.c.nodes|
  {
    var s := w.c.nodes[i].raft;
    s.role == Leader && s.currentTerm in w.h.reigns ==>
      forall j: nat :: j < |s.nextIndex| && j != i ==>
        s.nextIndex[j] <= Max(|w.h.reigns[s.currentTerm].initial|, Ack(w.h, j, s.currentTerm) + 1)
  }

  ghost predicate AllTruthful(w: World) {
    forall i {:trigger Truthful(w, i)} :: 0 <= i < |w.c.nodes| ==> Truthful(w, i)
  }

  // At every moment of the run, every peer holds what it has acknowledged to its present leader
  // and every leader expects no more.
  ghost predicate NothingLost(n: nat, run: seq<Action>)
    requires Legal(n, run)
    decreases |run|
  {
    AllHoldAcked(Exec(n, run)) && AllTruthful(Exec(n, run)) && (run != [] ==> NothingLost(n, run[..|run| - 1]))
  }

  // A peer that keeps its term and its log, or moves to a term it has acknowledged nothing in.
  lemma UnmovedHolds(w: World, a: Action, v: nat)
    requires LogInv(w) && Enabled(w.c, a) && v < |w.c.nodes| == |Do(w.c, a).nodes| && HoldsAcked(w, v)
    requires w.c.nodes[v].raft.log <= Do(w.c, a).nodes[v].raft.log
    requires forall term :: (v, term) in Record(w.c, w.h, a).acks ==>
               (v, term) in w.h.acks && Record(w.c, w.h, a).acks[(v, term)] == w.h.acks[(v, term)]
    ensures HoldsAcked(Step(w, a), v)
  {
    var s, s', h' := w.c.nodes[v].raft, Do(w.c, a).nodes[v].raft, Record(w.c, w.h, a);
    ExtendsStep(w, a);
    TermsKept(w.c, a);
    if (v, s'.currentTerm) in h'.acks {
      assert s'.currentTerm == s.currentTerm;
      var k := Ack(w.h, v, s.currentTerm) + 1;
      assert h'.reigns[s.currentTerm].log[..k] == w.h.reigns[s.currentTerm].log[..k];
    }
  }

  lemma WinnerHolds(w: World, m: Message)
    requires LogInv(w) && Enabled(w.c, HandleVoteReply(m)) && Wins(w.c, m)
    ensures var i := m.vote.candidateId;
            i < |Do(w.c, HandleVoteReply(m)).nodes| && HoldsAcked(Step(w, HandleVoteReply(m)), i)
  {
    var i := m.vote.candidateId;
    assert NodeShape(|w.c.nodes|, w.c.nodes[i].raft);
  }

  lemma ProposerHolds(w: World, i: nat, command: Command)
    requires LogInv(w) && Enabled(w.c, Submit(i, command))
    ensures i < |Do(w.c, Submit(i, command)).nodes| && HoldsAcked(Step(w, Submit(i, command)), i)
  {
    assert NodeOK(|w.c.nodes|, w.h, i, w.c.nodes[i]);
  }

  lemma ReceiverHolds(w: World, m: Message)
    requires LogInv(w) && Enabled(w.c, HandleAppend(m)) && Reaches(w, m) && HoldsAcked(w, m.to)
    requires AnswerAppend(w.c.nodes[m.to].raft, m.append).1.success
    ensures m.to < |Do(w.c, HandleAppend(m)).nodes| && HoldsAcked(Step(w, HandleAppend(m)), m.to)
  {
    var s := w.c.nodes[m.to].raft;
    Accepted(w, m);
    if Ack(w.h, m.to, m.append.term) > m.append.End() {
      assert (m.to, m.append.term) in w.h.acks;
      assert s.currentTerm == m.append.term;
      assert AnswerAppend(s, m.append).0.log == s.log;
    }
  }

  lemma HoldsStep(w: World, a: Action, v: nat)
    requires LogInv(w) && Enabled(w.c, a) && Guarded(w, a) && v < |w.c.nodes| == |Do(w.c, a).nodes| && HoldsAcked(w, v)
    ensures HoldsAcked(Step(w, a), v)
  {
    if v != Actor(a) {
      BystanderSame(w.c, a, v);
      UnmovedHolds(w, a, v);
    } else if Still(w.c, a) {
      StillLog(w.c, w.h, a);
      UnmovedHolds(w, a, v);
    } else if a.HandleVoteReply? {
      WinnerHolds(w, a.m);
    } else if a.Submit? {
      ProposerHolds(w, a.i, a.command);
    } else {
      ReceiverHolds(w, a.m);
    }
  }

  lemma LeadersTruthful(w: World)
    requires LogInv(w)
    ensures AllTruthful(w)
  {
    forall i | 0 <= i < |w.c.nodes| ensures Truthful(w, i) {
      assert NodeOK(|w.c.nodes|, w.h, i, w.c.nodes[i]);
    }
  }

  lemma {:induction false} GuardedLosesNothing(n: nat, run: seq<Action>)
    requires n >= 1 && LegalGuarded(n, run)
    ensures NothingLost(n, run)
    decreases |run|
  {
    RunLogInv(n, run);
    LeadersTruthful(Exec(n, run));
    if run != [] {
      var before, a := run[..|run| - 1], run[|run| - 1];
      GuardedLosesNothing(n, before);
      RunLogInv(n, before);
      var w := Exec(n, before);
      TermsKept(w.c, a);
      forall v | 0 <= v < |Exec(n, run).c.nodes|
        ensures HoldsAcked(Exec(n, run), v)
      {
        assert HoldsAcked(w, v);
        HoldsStep(w, a, v);
      }
    }
  }

  // Where the first guard fails, the receiver's log is cut below what it has acknowledged.
  lemma UnguardedLoses(w: World, m: Message)
    requires LogInv(w) && Enabled(w.c, HandleAppend(m)) && !Reaches(w, m)
    ensures m.to < |Do(w.c, HandleAppend(m)).nodes| && !HoldsAcked(Step(w, HandleAppend(m)), m.to)
  {
    var s := w.c.nodes[m.to].raft;
    Accepted(w, m);
    assert AnswerAppend(s, m.append).0.log == Merge(Follow(s, m.append), m.append);
    assert |AnswerAppend(s, m.append).0.log| == m.append.End() + 1;
  }

  // Where the second fails, the leader at once expects more than the peer has acknowledged.
  lemma OverclaimShows(w: World, m: Message)
    requires LogInv(w) && Enabled(w.c, HandleAppendReply(m)) && !ClaimsNoMore(w, m)
    ensures var i := m.append.leaderId;
            i < |Do(w.c, HandleAppendReply(m)).nodes| && !Truthful(Step(w, HandleAppendReply(m)), i)
  {
    var i := m.append.leaderId;
    assert MessageShape(|w.c.nodes|, m);
    var s' := Do(w.c, HandleAppendReply(m)).nodes[i].raft;
    assert s'.nextIndex[m.to] == BackUp(w.c.nodes[i].raft, m.appendReply);
  }

  // In every legal run: no peer ever loses an entry that it has acknowledged to its present leader,
  // and no leader ever expects of a peer more than that, if and only if every step met its guard.
  lemma {:induction false} NothingLostIffGuarded(n: nat, run: seq<Action>)
    requires n >= 1 && Legal(n, run)
    ensures NothingLost(n, run) <==> LegalGuarded(n, run)
    decreases |run|
  {
    if LegalGuarded(n, run) {
      GuardedLosesNothing(n, run);
    } else {
      var before, a := run[..|run| - 1], run[|run| - 1];
      NothingLostIffGuarded(n, before);
      if LegalGuarded(n, before) {
        RunLogInv(n, before);
        if a.HandleAppend? {
          UnguardedLoses(Exec(n, before), a.m);
          assert !HoldsAcked(Exec(n, run), a.m.to);
        } else {
          OverclaimShows(Exec(n, before), a.m);
          assert !Truthful(Exec(n, run), a.m.append.leaderId);
        }
      }
    }
  }
}
