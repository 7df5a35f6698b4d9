/** What a peer's handlers leave behind and answer, field by field and without reference to how
    they compute it.  The lemmas show that the functions of RaftTypes have these effects, and the
    methods of RaftServer promise them too.
 */
module RaftEffects {
  import opened RaftTypes
  import opened RaftQuorum

  /// ## Votes

  // The log that ends at (lastTerm, lastIndex) is not ahead of the candidate's.
  predicate NotBehind(args: VoteArgs, lastTerm: nat, lastIndex: int) {
    args.lastLogTerm > lastTerm || (args.lastLogTerm == lastTerm && args.lastLogIndex >= lastIndex)
  }

  predicate VoteEffect(s: Server, args: VoteArgs, s': Server, reply: VoteReply) {
    && |s.log| >= 1
    && s' == s.(currentTerm := s'.currentTerm, votedFor := s'.votedFor, role := s'.role)
    && s'.currentTerm == Max(s.currentTerm, args.term)
    && s'.role == (if args.term > s.currentTerm then Follower else s.role)
    && s'.votedFor == (if reply.voteGranted then args.candidateId else s.votedFor)
    && (reply.voteGranted <==>
          && args.term >= s.currentTerm && NotBehind(args, s.LastTerm(), s.LogLen() - 1)
          && (args.term > s.currentTerm || s.votedFor == -1 || s.votedFor == args.candidateId))
    && reply.term == (if reply.voteGranted then args.term else s.currentTerm)
  }

  lemma VoteHasEffect(s: Server, args: VoteArgs)
    requires |s.log| >= 1
    ensures VoteEffect(s, args, AnswerVote(s, args).0, AnswerVote(s, args).1)
  {
  }

  // Asking gives away the index and the term of the last entry, so a peer never finds itself behind.
  lemma AskHasEffect(s: Server, me: nat)
    requires s.Valid()
    ensures var args := AskVote(s, me);
            && args.term == s.currentTerm && args.candidateId == me
            && args.lastLogIndex == s.LogLen() - 1 && args.lastLogTerm == s.At(s.LogLen() - 1).term
            && NotBehind(args, s.LastTerm(), s.LogLen() - 1)
  {
  }

  predicate CountEffect(s: Server, me: nat, peers: nat, electionTerm: nat, voteCount: nat, reply: VoteReply,
                        s': Server, tally: Tally)
  {
    var current := s.currentTerm == electionTerm;
    var demoted := current && reply.term > electionTerm;
    var wins := current && !demoted && reply.voteGranted && voteCount + 1 >= peers / 2 + 1;
    && (tally == Over <==> !current || demoted || wins)
    && (tally.Counting? ==> tally.voteCount == if reply.voteGranted then voteCount + 1 else voteCount)
    && (demoted ==> s' == s.(currentTerm := reply.term, votedFor := -1, role := Follower))
    && (wins ==>
          && s' == s.(role := Leader, nextIndex := s'.nextIndex, matchIndex := s'.matchIndex)
          && |s'.nextIndex| == |s'.matchIndex| == peers
          && (forall j :: 0 <= j < peers ==> s'.nextIndex[j] == if j == me then 0 else s.LogLen())
          && (forall j :: 0 <= j < peers ==> s'.matchIndex[j] == 0))
    && (!demoted && !wins ==> s' == s)
  }

  lemma CountHasEffect(s: Server, me: nat, peers: nat, electionTerm: nat, voteCount: nat, reply: VoteReply)
    ensures var (s', tally) := CountVote(s, me, peers, electionTerm, voteCount, reply);
            CountEffect(s, me, peers, electionTerm, voteCount, reply, s', tally)
  {
  }

  /// ## AppendEntries

  // What becomes of log and commitIndex once prevLogIndex has matched.
  predicate StoreEffect(s: Server, args: AppendArgs, s': Server) {
    if args.entries != [] && args.End() <= s.commitIndex then
      s'.log == s.log && s'.commitIndex == s.commitIndex
    else
      var kept := Max(args.prevLogIndex, s.commitIndex);
      && (args.entries == [] ==> s'.log == s.log)
      && (args.entries != [] ==>
            && s'.LogLen() == args.End() + 1
            && (forall i :: s.snapshotIndex <= i <= kept ==> s.Holds(i) && s'.Holds(i) && s'.At(i) == s.At(i))
            && (forall i :: kept < i <= args.End() ==>
                  s'.Holds(i) && s'.At(i) == args.entries[i - args.prevLogIndex - 1]))
      && s'.commitIndex == Max(s.commitIndex, Min(args.leaderCommit, s'.LogLen() - 1))
  }

  predicate AppendEffect(s: Server, args: AppendArgs, s': Server, reply: AppendReply) {
    if args.term < s.currentTerm then s' == s && reply == AppendReply(s.currentTerm, false, 0, 0, 0)
    else
      && s' == s.(currentTerm := args.term, role := Follower, votedFor := s'.votedFor,
                  log := s'.log, commitIndex := s'.commitIndex)
      && s'.votedFor == (if args.term > s.currentTerm then -1 else s.votedFor)
      && reply.term == args.term
      && (reply.success <==> s.Holds(args.prevLogIndex) && s.At(args.prevLogIndex).term == args.prevLogTerm)
      && (reply.success ==> StoreEffect(s, args, s') && (reply.xTerm, reply.xLength) == (0, 0))
      && (!reply.success ==> s'.log == s.log && s'.commitIndex == s.commitIndex)
      && (!reply.success && args.prevLogIndex >= s.LogLen() ==> (reply.xTerm, reply.xLength) == (0, s.LogLen()))
      && (!reply.success && s.Holds(args.prevLogIndex) ==>
            (reply.xTerm, reply.xLength) == (s.At(args.prevLogIndex).term, 0))
  }

  lemma MergeHasEffect(s: Server, args: AppendArgs)
    requires s.Valid() && s.Holds(args.prevLogIndex) && args.entries != [] && args.End() > s.commitIndex
    ensures var s' := s.(log := Merge(s, args)); var kept := Max(args.prevLogIndex, s.commitIndex);
            && s'.LogLen() == args.End() + 1
            && (forall i :: s.snapshotIndex <= i <= kept ==> s.Holds(i) && s'.Holds(i) && s'.At(i) == s.At(i))
            && (forall i :: kept < i <= args.End() ==>
                  s'.Holds(i) && s'.At(i) == args.entries[i - args.prevLogIndex - 1])
  {
  }

  lemma AcceptHasEffect(s: Server, args: AppendArgs)
    requires s.Valid() && s.Holds(args.prevLogIndex)
    ensures var s' := Accept(s, args);
            && s' == s.(log := s'.log, commitIndex := s'.commitIndex)
            && StoreEffect(s, args, s')
  {
    if args.entries != [] && args.End() > s.commitIndex {
      MergeHasEffect(s, args);
      var s' := Accept(s, args);
      assert s'.log == Merge(s, args);
      forall i | s.snapshotIndex <= i <= Max(args.prevLogIndex, s.commitIndex)
        ensures s'.Holds(i) && s'.At(i) == s.At(i)
      {
        assert s.(log := Merge(s, args)).At(i) == s.At(i);
      }
      forall i | Max(args.prevLogIndex, s.commitIndex) < i <= args.End()
        ensures s'.Holds(i) && s'.At(i) == args.entries[i - args.prevLogIndex - 1]
      {
        assert s.(log := Merge(s, args)).Holds(i);
      }
    }
  }

  // The store looks at nothing but the log and the indices.
  lemma StoreEffectOf(s: Server, f: Server, args: AppendArgs, s': Server)
    requires StoreEffect(f, args, s')
    requires f.log == s.log && f.commitIndex == s.commitIndex && f.snapshotIndex == s.snapshotIndex
    ensures StoreEffect(s, args, s')
  {
    if args.entries != [] && args.End() > s.commitIndex {
      forall i | s.snapshotIndex <= i <= Max(args.prevLogIndex, s.commitIndex)
        ensures s.Holds(i) && s'.Holds(i) && s'.At(i) == s.At(i)
      {
        assert f.Holds(i) && s'.Holds(i) && s'.At(i) == f.At(i);
      }
    }
  }

  lemma AppendHasEffect(s: Server, args: AppendArgs)
    requires s.Valid() && s.snapshotIndex <= args.prevLogIndex
    ensures AppendEffect(s, args, AnswerAppend(s, args).0, AnswerAppend(s, args).1)
  {
    if args.term >= s.currentTerm && s.Holds(args.prevLogIndex) {
      var f := Follow(s, args);
      if f.At(args.prevLogIndex).term == args.prevLogTerm {
        AcceptHasEffect(f, args);
        StoreEffectOf(s, f, args, Accept(f, args));
      }
    }
  }

  // A request carries everything the leader has from nextIndex on.
  predicate RequestEffect(s: Server, me: nat, peer: nat, args: AppendArgs) {
    && peer < |s.nextIndex|
    && args.term == s.currentTerm && args.leaderId == me && args.leaderCommit == s.commitIndex
    && args.prevLogIndex == s.nextIndex[peer] - 1 && args.End() == s.LogLen() - 1
    && s.Holds(args.prevLogIndex) && args.prevLogTerm == s.At(args.prevLogIndex).term
    && (forall i :: args.prevLogIndex < i <= args.End() ==>
          s.Holds(i) && args.entries[i - args.prevLogIndex - 1] == s.At(i))
  }

  lemma RequestHasEffect(s: Server, me: nat, peer: nat)
    requires peer < |s.nextIndex| && s.snapshotIndex < s.nextIndex[peer] <= s.LogLen()
    ensures RequestEffect(s, me, peer, NextRequest(s, me, peer))
  {
  }

  // The last entry of that term is at position k.
  predicate LastOf(log: seq<Entry>, term: nat, k: int) {
    0 <= k < |log| && log[k].term == term && forall j :: k < j < |log| ==> log[j].term != term
  }

  // Where a rejection sends nextIndex: to the length it carries, or one past the last position of
  // the term it carries, or, if the log has no entry of that term, to the index it carries; never
  // below the snapshot in the first and the last case, and to the snapshot if the term is older.
  predicate BackUpEffect(s: Server, reply: AppendReply, next: int) {
    if reply.xTerm == 0 then next == Max(reply.xLength, s.snapshotIndex)
    else if reply.xTerm < s.snapshotTerm then next == s.snapshotIndex
    else
      && (forall k :: 0 <= k < |s.log| && LastOf(s.log, reply.xTerm, k) ==> next == k + 1)
      && ((forall k :: 0 <= k < |s.log| ==> s.log[k].term != reply.xTerm) ==>
            next == Max(reply.xIndex, s.snapshotIndex))
  }

  lemma {:induction false} LastAtMostFinds(log: seq<Entry>, term: nat, hi: nat, k: nat)
    requires SortedTerms(log) && k <= hi < |log| && LastOf(log, term, k)
    ensures LastAtMost(log, term, hi) == k
  {
    if hi > k {
      assert log[hi].term > term;
      LastAtMostFinds(log, term, hi - 1, k);
    }
  }

  lemma BackUpHasEffect(s: Server, reply: AppendReply)
    requires |s.log| >= 1 && SortedTerms(s.log)
    ensures BackUpEffect(s, reply, BackUp(s, reply))
  {
    if reply.xTerm != 0 && reply.xTerm >= s.snapshotTerm {
      forall k | 0 <= k < |s.log| && LastOf(s.log, reply.xTerm, k) ensures BackUp(s, reply) == k + 1 {
        LastAtMostFinds(s.log, reply.xTerm, |s.log| - 1, k);
      }
    }
  }

  // A success in the leader's own term matches, a newer term in it demotes, and any rejection that
  // carries no newer term than the request's backs up; nothing else happens.
  predicate UseEffect(s: Server, peer: nat, args: AppendArgs, reply: AppendReply, s': Server) {
    && peer < |s.nextIndex| == |s.matchIndex| && |s'.nextIndex| == |s.nextIndex| && |s'.matchIndex| == |s.matchIndex|
    && var leads := s.role == Leader && s.currentTerm == args.term;
    && (leads && reply.success ==>
          && s'.nextIndex[peer] == Max(s.nextIndex[peer], args.End() + 1)
          && s'.matchIndex[peer] == s'.nextIndex[peer] - 1)
    && (leads && !reply.success && reply.term > args.term ==>
          s' == s.(currentTerm := reply.term, votedFor := -1, role := Follower))
    && (!leads && (reply.success || reply.term > args.term) ==> s' == s)
    && (reply.success || reply.term <= args.term ==>
          s' == s.(nextIndex := s'.nextIndex, matchIndex := s'.matchIndex))
    && (!reply.success ==> s'.matchIndex == s.matchIndex)
    && (forall j :: 0 <= j < |s.nextIndex| && j != peer ==>
          s'.nextIndex[j] == s.nextIndex[j] && s'.matchIndex[j] == s.matchIndex[j])
  }

  lemma UseHasEffect(s: Server, peer: nat, args: AppendArgs, reply: AppendReply)
    requires |s.log| >= 1 && peer < |s.nextIndex| == |s.matchIndex|
    ensures var s' := UseAppendReply(s, peer, args, reply);
            && UseEffect(s, peer, args, reply, s')
            && (SortedTerms(s.log) && !reply.success && reply.term <= args.term ==>
                  BackUpEffect(s, reply, s'.nextIndex[peer]))
  {
    if SortedTerms(s.log) {
      BackUpHasEffect(s, reply);
    }
  }

  /// ## Commit

  // k is the greatest index that n - n/2 of the n peers have reached.
  ghost predicate ReachedByMost(xs: seq<int>, k: int) {
    |AtLeast(xs, k)| >= |xs| - |xs| / 2
  }

  ghost predicate GreatestReached(xs: seq<int>, k: int) {
    ReachedByMost(xs, k) && forall v :: ReachedByMost(xs, v) ==> v <= k
  }

  predicate CommitsAt(s: Server, k: int, commit: int) {
    commit == if k > s.commitIndex && s.Holds(k) && s.At(k).term == s.currentTerm then k else s.commitIndex
  }

  // commitIndex moves to the greatest index that enough peers have reached, the leader counted at
  // the end of its log, if that is higher and holds an entry of the current term; else it stays.
  ghost predicate CommitEffect(s: Server, me: nat, s': Server) {
    && me < |s.matchIndex|
    && s' == s.(commitIndex := s'.commitIndex)
    && exists k :: GreatestReached(s.matchIndex[me := s.LogLen() - 1], k) && CommitsAt(s, k, s'.commitIndex)
  }

  lemma OneGreatest(xs: seq<int>, j: int, k: int)
    requires GreatestReached(xs, j) && GreatestReached(xs, k)
    ensures j == k
  {
    assert ReachedByMost(xs, j) && ReachedByMost(xs, k);
  }

  lemma MedianIsGreatest(xs: seq<int>)
    requires |xs| >= 1
    ensures GreatestReached(xs, Median(xs))
  {
    MedianIsQuorumIndex(xs, Median(xs));
    forall v | ReachedByMost(xs, v) ensures v <= Median(xs) {
      MedianIsQuorumIndex(xs, v);
    }
  }

  lemma CommitHasEffect(s: Server, me: nat)
    requires me < |s.matchIndex|
    requires Median(Matched(s, me)) > s.commitIndex ==> s.Holds(Median(Matched(s, me)))
    ensures CommitEffect(s, me, AdvanceCommit(s, me))
  {
    var xs := s.matchIndex[me := s.LogLen() - 1];
    MedianIsGreatest(xs);
    var k := Median(xs);
    assert GreatestReached(xs, k);
    assert CommitsAt(s, k, AdvanceCommit(s, me).commitIndex);
  }

  // So a current-term entry that enough peers have reached is committed by the next attempt.
  lemma ReachedIsCommitted(s: Server, me: nat, k: int)
    requires me < |s.matchIndex|
    requires Median(Matched(s, me)) > s.commitIndex ==> s.Holds(Median(Matched(s, me)))
    requires ReachedByMost(s.matchIndex[me := s.LogLen() - 1], k) && SortedTerms(s.log)
    requires s.Holds(k) && s.At(k).term == s.currentTerm && s.LastTerm() <= s.currentTerm
    ensures AdvanceCommit(s, me).commitIndex >= k
  {
    CommitHasEffect(s, me);
    MedianIsQuorumIndex(s.matchIndex[me := s.LogLen() - 1], k);
    var m := Median(Matched(s, me));
    if m > s.commitIndex {
      assert s.log[k - s.snapshotIndex].term <= s.log[m - s.snapshotIndex].term <= s.log[|s.log| - 1].term;
    }
  }

  /// ## Wake-ups

  // A snapshot that is held and not yet delivered comes first, as it is held; then the log's own
  // command at each index up to commitIndex, each once and in order, unless this is a leader that
  // found nothing new to commit.
  predicate WakeEffect(s: Server, s': Server, msgs: seq<ApplyMsg>) {
    var held := s.snapshot != NoSnapshot && s.lastApplied < s.snapshotIndex;
    var from := if held then s.snapshotIndex else s.lastApplied;
    var to := if s.role != Leader || s'.commitIndex > s.commitIndex then Max(from, s'.commitIndex) else from;
    && s' == s.(commitIndex := s'.commitIndex, lastApplied := to)
    && (s.role != Leader ==> s'.commitIndex == s.commitIndex)
    && if held then
         && |msgs| >= 1 && msgs[0] == ApplySnapshot(s.snapshotIndex, s.snapshotTerm, s.snapshot)
         && CommandsUpTo(s, from, to, msgs[1..])
       else CommandsUpTo(s, from, to, msgs)
  }

  // The log's own commands at the indices after `from` up to `to`.
  predicate CommandsUpTo(s: Server, from: nat, to: nat, msgs: seq<ApplyMsg>) {
    && |msgs| == to - from
    && forall i :: from < i <= to ==> s.Holds(i) && msgs[i - from - 1] == ApplyCommand(i, s.At(i).command)
  }

  /// ## Snapshots

  // An index that is new and in the log: the snapshot, its index and the term the log has there are
  // remembered, no entry from there on is lost, and nothing at or below it is left to deliver.
  predicate SnapshotEffect(s: Server, index: int, data: Snapshot, s': Server) {
    if s.snapshotIndex < index < s.LogLen() then
      && s' == s.(log := s'.log, snapshot := data, snapshotIndex := index, snapshotTerm := s.At(index).term,
                  lastApplied := Max(s.lastApplied, index), commitIndex := Max(s.commitIndex, index))
      && s'.LogLen() == s.LogLen()
      && (forall i :: index <= i < s.LogLen() ==> s'.At(i) == s.At(i))
    else s' == s
  }

  lemma SnapshotHasEffect(s: Server, index: int, data: Snapshot)
    requires |s.log| >= 1
    ensures SnapshotEffect(s, index, data, Compact(s, index, data))
  {
  }
}
