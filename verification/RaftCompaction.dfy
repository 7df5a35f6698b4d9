/** Compaction refines the peer that never compacts.

    The same calls are made on a peer that discards its log up to a snapshot whenever the service
    asks, and on one that ignores the service's snapshots.  As long as the service only snapshots
    what is committed and no AppendEntries reaches below a snapshot, the two stay equal above the
    snapshot and give the same answers, across crashes.
 */
module RaftCompaction {
  import opened RaftTypes
  import opened RaftServer

  // What both kinds of peer keep between calls.
  predicate Tidy(s: Server) {
    s.Valid() && s.lastApplied <= Max(s.commitIndex, s.snapshotIndex) && SortedTerms(s.log)
  }

  // b is a without its entries below b's snapshot index.
  predicate Compacts(a: Server, b: Server) {
    && Tidy(a) && Tidy(b)
    && a.snapshotIndex == 0 && a.snapshotTerm == 0 && a.snapshot == NoSnapshot && a.log[0] == DUMMY
    && b.snapshotIndex < |a.log|
    && b.log == a.log[b.snapshotIndex..]
    && b.currentTerm == a.currentTerm && b.votedFor == a.votedFor && b.role == a.role
    && b.commitIndex == a.commitIndex
    && |b.nextIndex| == |a.nextIndex| && |b.matchIndex| == |a.matchIndex|
    // a peer restarted with an empty snapshot has forgotten the snapshot's term
    && (b.snapshotTerm == b.log[0].term || b.snapshotTerm == 0)
  }

  // The two hold the same entry at every index from the snapshot on.
  lemma SameEntries(a: Server, b: Server, index: int)
    requires Compacts(a, b) && b.snapshotIndex <= index
    ensures a.LogLen() == b.LogLen()
    ensures a.Holds(index) == b.Holds(index)
    ensures a.Holds(index) ==> a.At(index) == b.At(index)
  {
  }

  // They would send the same request to a peer whose nextIndex is above the snapshot.
  lemma SameRequest(a: Server, b: Server, me: nat, peer: nat)
    requires Compacts(a, b) && peer < |a.nextIndex| && peer < |b.nextIndex| && a.nextIndex[peer] == b.nextIndex[peer]
    requires b.snapshotIndex < b.nextIndex[peer] <= b.LogLen()
    ensures NextRequest(a, me, peer) == NextRequest(b, me, peer)
  {
    var next := a.nextIndex[peer];
    assert a.log[next..] == b.log[next - b.snapshotIndex..];
  }

  /// ## Votes

  lemma SameVote(a: Server, b: Server, args: VoteArgs)
    requires Compacts(a, b)
    ensures AnswerVote(a, args).1 == AnswerVote(b, args).1
    ensures Compacts(AnswerVote(a, args).0, AnswerVote(b, args).0)
  {
    assert a.log[|a.log| - 1] == b.log[|b.log| - 1];
    assert UpToDate(a, args) == UpToDate(b, args);
  }

  lemma SameAsk(a: Server, b: Server, me: nat)
    requires Compacts(a, b)
    ensures AskVote(a, me) == AskVote(b, me)
  {
    assert a.log[|a.log| - 1] == b.log[|b.log| - 1];
  }

  /// ## AppendEntries

  lemma {:induction false} SameFirst(log: seq<Entry>, term: nat, hi: nat, cut: nat)
    requires cut < hi < |log| && log[cut].term < term
    ensures FirstAtLeast(log, term, hi) == FirstAtLeast(log[cut..], term, hi - cut) + cut
    ensures FirstAtLeast(log, term, hi) >= 1
  {
    if hi > cut && log[hi - 1].term >= term {
      SameFirst(log, term, hi - 1, cut);
    }
  }

  lemma MergedTidy(a: Server, b: Server, args: AppendArgs)
    requires Compacts(a, b) && a.Holds(args.prevLogIndex) && b.snapshotIndex <= args.prevLogIndex
    requires !AlreadyCommitted(a, args)
    ensures b.snapshotIndex < |Merge(a, args)| && Merge(b, args) == Merge(a, args)[b.snapshotIndex..]
    ensures |Merge(a, args)| > a.commitIndex
    ensures Merge(a, args)[0] == DUMMY && Merge(a, args)[b.snapshotIndex] == a.log[b.snapshotIndex]
  {
    var cut := b.snapshotIndex;
    var from := if a.commitIndex > args.prevLogIndex then a.commitIndex + 1 else args.prevLogIndex + 1;
    assert a.log[..from][cut..] == a.log[cut..][..from - cut];
  }

  // The terms an accepted request carries continue the receiver's.
  predicate Continues(s: Server, args: AppendArgs) {
    s.Holds(args.prevLogIndex) && s.At(args.prevLogIndex).term == args.prevLogTerm && s.Valid() ==>
      AlreadyCommitted(s, args) || SortedTerms(Merge(s, args))
  }

  lemma SameStored(a: Server, b: Server, la: seq<Entry>, commit: nat)
    requires Compacts(a, b) && SortedTerms(la) && b.snapshotIndex < |la|
    requires la[0] == DUMMY && la[b.snapshotIndex] == a.log[b.snapshotIndex]
    requires a.commitIndex <= commit < |la|
    ensures Compacts(a.(log := la, commitIndex := commit), b.(log := la[b.snapshotIndex..], commitIndex := commit))
  {
  }

  lemma AcceptedCommit(s: Server, args: AppendArgs)
    requires s.Valid() && s.Holds(args.prevLogIndex) && !AlreadyCommitted(s, args)
    requires |Merge(s, args)| + s.snapshotIndex > s.commitIndex
    ensures var commit := Accept(s, args).commitIndex;
            && Accept(s, args) == s.(log := Merge(s, args), commitIndex := commit)
            && s.commitIndex <= commit
            && commit == Max(s.commitIndex, Min(args.leaderCommit, |Merge(s, args)| + s.snapshotIndex - 1))
  {
  }

  lemma SameAccept(a: Server, b: Server, args: AppendArgs)
    requires Compacts(a, b) && a.Holds(args.prevLogIndex) && b.snapshotIndex <= args.prevLogIndex
    requires AlreadyCommitted(a, args) || SortedTerms(Merge(a, args))
    ensures Compacts(Accept(a, args), Accept(b, args))
  {
    if !AlreadyCommitted(a, args) {
      MergedTidy(a, b, args);
      AcceptedCommit(a, args);
      AcceptedCommit(b, args);
      SameStored(a, b, Merge(a, args), Accept(a, args).commitIndex);
    }
  }

  // Everything in a reply but the hint where the conflicting term starts.
  datatype Verdict = Verdict(term: nat, success: bool, xTerm: nat, xLength: int)

  function VerdictOf(r: AppendReply): Verdict { Verdict(r.term, r.success, r.xTerm, r.xLength) }

  lemma SameFollow(a: Server, b: Server, args: AppendArgs)
    requires Compacts(a, b) && args.term >= a.currentTerm
    ensures Compacts(Follow(a, args), Follow(b, args))
  {
  }

  // The verdict depends on the term, the length of the log and one entry of it.
  function VerdictFrom(currentTerm: nat, logLen: nat, termAtPrev: nat, args: AppendArgs): Verdict {
    if args.term < currentTerm then Verdict(currentTerm, false, 0, 0)
    else if args.prevLogIndex >= logLen then Verdict(args.term, false, 0, logLen)
    else if termAtPrev != args.prevLogTerm then Verdict(args.term, false, termAtPrev, 0)
    else Verdict(args.term, true, 0, 0)
  }

  function TermAtPrev(s: Server, args: AppendArgs): nat {
    if s.Holds(args.prevLogIndex) then s.At(args.prevLogIndex).term else 0
  }

  lemma VerdictIs(s: Server, args: AppendArgs)
    requires s.Valid() && s.snapshotIndex <= args.prevLogIndex
    ensures VerdictOf(AnswerAppend(s, args).1) == VerdictFrom(s.currentTerm, s.LogLen(), TermAtPrev(s, args), args)
  {
  }

  lemma SameVerdict(a: Server, b: Server, args: AppendArgs)
    requires Compacts(a, b) && b.snapshotIndex <= args.prevLogIndex
    ensures VerdictOf(AnswerAppend(a, args).1) == VerdictOf(AnswerAppend(b, args).1)
  {
    VerdictIs(a, args);
    VerdictIs(b, args);
    SameEntries(a, b, args.prevLogIndex);
  }

  lemma SameAppend(a: Server, b: Server, args: AppendArgs)
    requires Compacts(a, b) && b.snapshotIndex <= args.prevLogIndex && Continues(a, args) && Continues(b, args)
    ensures VerdictOf(AnswerAppend(a, args).1) == VerdictOf(AnswerAppend(b, args).1)
    ensures Compacts(AnswerAppend(a, args).0, AnswerAppend(b, args).0)
  {
    SameVerdict(a, b, args);
    if args.term >= a.currentTerm {
      SameFollow(a, b, args);
      Answered(a, args);
      Answered(b, args);
      if AnswerAppend(a, args).1.success {
        SameAccept(Follow(a, args), Follow(b, args), args);
      }
    }
  }

  lemma Answered(s: Server, args: AppendArgs)
    requires s.Valid() && s.snapshotIndex <= args.prevLogIndex && args.term >= s.currentTerm && Continues(s, args)
    ensures var f := Follow(s, args);
            if AnswerAppend(s, args).1.success then
              && f.Valid() && f.Holds(args.prevLogIndex)
              && AnswerAppend(s, args).0 == Accept(f, args)
              && (AlreadyCommitted(f, args) || SortedTerms(Merge(f, args)))
            else AnswerAppend(s, args).0 == f
  {
  }

  lemma HintOf(s: Server, args: AppendArgs)
    requires s.Valid() && s.snapshotIndex <= args.prevLogIndex
    requires AnswerAppend(s, args).1.xTerm != 0
    ensures IsHint(s, args.prevLogIndex, AnswerAppend(s, args).1)
  {
  }

  lemma SameFindFirst(a: Server, b: Server, term: nat, prev: nat)
    requires Compacts(a, b) && b.snapshotIndex <= prev < |a.log| && a.log[prev].term == term && term != 0
    ensures var fa, fb := FindFirst(a, term, prev), FindFirst(b, term, prev - b.snapshotIndex) + b.snapshotIndex;
            if b.snapshotIndex == 0 || b.log[0].term < term then fb == fa
            else fb == b.snapshotIndex - 1 || fb == b.snapshotIndex
  {
    var cut := b.snapshotIndex;
    assert a.log[cut] == b.log[0];
    if cut == 0 {
      assert a.log[0..] == a.log;
    } else if b.log[0].term < term {
      SameFirst(a.log, term, prev, cut);
    } else {
      AllEqualFirst(b.log, term, prev - cut);
    }
  }

  predicate IsHint(s: Server, prev: nat, r: AppendReply) {
    && s.snapshotIndex <= prev < s.snapshotIndex + |s.log|
    && r.xTerm != 0 && r.xTerm == s.log[prev - s.snapshotIndex].term
    && r.xIndex == FindFirst(s, r.xTerm, prev - s.snapshotIndex) + s.snapshotIndex
  }

  lemma HintsCompare(a: Server, b: Server, prev: nat, ra: AppendReply, rb: AppendReply)
    requires Compacts(a, b) && IsHint(a, prev, ra) && IsHint(b, prev, rb) && ra.xTerm == rb.xTerm
    ensures if b.snapshotIndex == 0 || b.log[0].term < ra.xTerm then rb.xIndex == ra.xIndex
            else rb.xIndex == b.snapshotIndex - 1 || rb.xIndex == b.snapshotIndex
  {
    SameFindFirst(a, b, ra.xTerm, prev);
  }

  // The hint is the same too when the conflicting term starts above the snapshot; otherwise the
  // compacted peer points at its snapshot or just below it.
  lemma SameHint(a: Server, b: Server, args: AppendArgs)
    requires Compacts(a, b) && b.snapshotIndex <= args.prevLogIndex
    requires AnswerAppend(a, args).1.xTerm != 0
    ensures var ra, rb := AnswerAppend(a, args).1, AnswerAppend(b, args).1;
            if b.snapshotIndex == 0 || b.log[0].term < ra.xTerm then rb.xIndex == ra.xIndex
            else rb.xIndex == b.snapshotIndex - 1 || rb.xIndex == b.snapshotIndex
  {
    SameVerdict(a, b, args);
    HintOf(a, args);
    HintOf(b, args);
    HintsCompare(a, b, args.prevLogIndex, AnswerAppend(a, args).1, AnswerAppend(b, args).1);
  }

  lemma {:induction false} AllEqualFirst(log: seq<Entry>, term: nat, hi: nat)
    requires SortedTerms(log) && hi < |log| && log[0].term >= term
    ensures FirstAtLeast(log, term, hi) == 0
  {
    if hi > 0 {
      AllEqualFirst(log, term, hi - 1);
    }
  }

  /// ## Backing up

  // Some entry of that term lies at the snapshot or above it.
  predicate TermFrom(log: seq<Entry>, cut: nat, term: nat) {
    exists k :: cut <= k < |log| && log[k].term == term
  }

  // The search from the end stops at the same entry, unless it has to go below the snapshot.
  lemma {:induction false} SameLast(log: seq<Entry>, term: nat, hi: nat, cut: nat)
    requires cut <= hi < |log| && log[cut].term <= term
    ensures LastAtMost(log, term, hi) == LastAtMost(log[cut..], term, hi - cut) + cut
    ensures log[LastAtMost(log, term, hi)].term <= term
  {
    if hi > cut && log[hi].term > term {
      SameLast(log, term, hi - 1, cut);
    }
  }

  lemma {:induction false} LastHas(log: seq<Entry>, term: nat, hi: nat, k: nat)
    requires SortedTerms(log) && k <= hi < |log| && log[k].term == term
    ensures k <= LastAtMost(log, term, hi) && log[LastAtMost(log, term, hi)].term == term
  {
    if hi > k && log[hi].term > term {
      LastHas(log, term, hi - 1, k);
    }
  }

  // The snapshot's own term is at most the one asked for, so both peers search their logs.
  lemma SameFindLast(a: Server, b: Server, term: nat)
    requires Compacts(a, b) && b.log[0].term <= term
    ensures 0 <= FindLast(b, term) && FindLast(a, term) == FindLast(b, term) + b.snapshotIndex
    ensures a.log[FindLast(a, term)] == b.log[FindLast(b, term)]
  {
    var cut := b.snapshotIndex;
    assert a.log[cut] == b.log[0];
    SameLast(a.log, term, |a.log| - 1, cut);
  }

  // The search ends at an entry of that term exactly when there is one from the snapshot on.
  lemma LastIffTermFrom(log: seq<Entry>, term: nat, last: nat, cut: nat)
    requires SortedTerms(log) && cut <= last < |log| && last == LastAtMost(log, term, |log| - 1)
    ensures log[last].term == term <==> TermFrom(log, cut, term)
  {
    if TermFrom(log, cut, term) {
      var k :| cut <= k < |log| && log[k].term == term;
      LastHas(log, term, |log| - 1, k);
    }
  }

  // Where a leader backs up to.  When the rejected term is found at the snapshot or above, the
  // compacting leader lands lower than the other by exactly its snapshot index, for the source
  // does not add it back; it then turns to the snapshot if and only if the right position is at
  // most twice that index, although its log holds everything from the right position on.  When
  // the term is missing, or the rejection carries a length, both back up alike down to the snapshot.
  lemma CompactedBackUp(a: Server, b: Server, reply: AppendReply)
    requires Compacts(a, b)
    ensures reply.xTerm != 0 && TermFrom(a.log, b.snapshotIndex, reply.xTerm) ==>
              && BackUp(b, reply) == BackUp(a, reply) - b.snapshotIndex
              && b.snapshotIndex < BackUp(a, reply) <= b.LogLen()
              && (BackUp(b, reply) <= b.snapshotIndex <==> BackUp(a, reply) <= 2 * b.snapshotIndex)
    ensures reply.xTerm == 0 || (b.log[0].term < reply.xTerm && !TermFrom(a.log, b.snapshotIndex, reply.xTerm)) ==>
              BackUp(b, reply) == Max(BackUp(a, reply), b.snapshotIndex)
    ensures 0 < reply.xTerm < b.log[0].term ==>
              BackUp(b, reply) == b.snapshotIndex || BackUp(b, reply) == Max(reply.xIndex, b.snapshotIndex)
  {
    var cut, term := b.snapshotIndex, reply.xTerm;
    assert a.log[cut] == b.log[0];
    if term != 0 && b.log[0].term <= term {
      SameFindLast(a, b, term);
      LastIffTermFrom(a.log, term, FindLast(a, term), cut);
    }
  }

  /// ## Snapshots and crashes

  // Taking a snapshot keeps the two peers related exactly when it changes nothing or covers
  // committed entries only.
  lemma SnapshotOfCommitted(a: Server, b: Server, index: int, data: Snapshot)
    requires Compacts(a, b)
    ensures Compacts(a, Compact(b, index, data)) <==> !Effective(b, index) || index <= b.commitIndex
  {
    if Effective(b, index) {
      var cut := index - b.snapshotIndex;
      assert b.log[cut..] == a.log[index..];
    }
  }

  lemma SameRestart(a: Server, b: Server)
    requires Compacts(a, b)
    ensures Compacts(Restart(Persist(a)), Restart(Persist(b)))
  {
    assert a.log[b.snapshotIndex] == b.log[0];
  }

  /// ## Whole runs

  // What happens to a peer, in the order of one critical section after the other.
  datatype Call =
    | Vote(vote: VoteArgs)
    | Append(append: AppendArgs)
    | StandForElection(me: nat)
    | CountReply(me: nat, peers: nat, electionTerm: nat, voteCount: nat, voteReply: VoteReply)
    | Submit(command: Command)
    | UseReply(peer: nat, request: AppendArgs, reply: AppendReply)
    | StepDown(newTerm: nat)
    | WakeUp(me: nat, matched: seq<int>)
    | Snap(index: int, data: Snapshot)
    | CrashAndRestart

  datatype Answer =
    | VoteAnswer(reply: VoteReply)
    | AppendAnswer(verdict: Verdict)
    | AskAnswer(vote: VoteArgs)
    | TallyAnswer(tally: Tally)
    | Delivered(msgs: seq<ApplyMsg>)
    | NoAnswer

  // The peer can take the call: terms never fall, entries continue its log, an AppendEntries does
  // not reach below its snapshot, and a wake-up finds the middle match index in its log and the
  // snapshot it has yet to deliver.  `matched` is what the leader knows of its followers then.
  predicate CanTake(s: Server, call: Call) {
    && |s.log| >= 1
    && match call
       case Append(args) => s.Valid() && s.snapshotIndex <= args.prevLogIndex && Continues(s, args)
       case StepDown(term) => s.currentTerm < term
       case Submit(_) => s.log[|s.log| - 1].term <= s.currentTerm
       case UseReply(peer, _, _) => peer < |s.nextIndex| == |s.matchIndex|
       case WakeUp(me, matched) => CanWake(s.(matchIndex := matched), me)
       case Snap(index, _) => !Effective(s, index) || index <= s.commitIndex
       case _ => true
  }

  function Take(s: Server, call: Call): (Server, Answer)
    requires CanTake(s, call)
  {
    match call
    case Vote(args) => var (s', reply) := AnswerVote(s, args); (s', VoteAnswer(reply))
    case Append(args) => var (s', reply) := AnswerAppend(s, args); (s', AppendAnswer(VerdictOf(reply)))
    case StandForElection(me) => var s' := BeginElection(s, me); (s', AskAnswer(AskVote(s', me)))
    case CountReply(me, peers, electionTerm, voteCount, reply) =>
      var (s', tally) := CountVote(s, me, peers, electionTerm, voteCount, reply); (s', TallyAnswer(tally))
    case Submit(command) => (Propose(s, command), NoAnswer)
    case UseReply(peer, args, reply) => (UseAppendReply(s, peer, args, reply), NoAnswer)
    case StepDown(term) => (Demote(s, term), NoAnswer)
    case WakeUp(me, matched) => var (s', msgs) := Wake(s.(matchIndex := matched), me); (s', Delivered(msgs))
    case Snap(index, data) => (Compact(s, index, data), NoAnswer)
    case CrashAndRestart => (Restart(Persist(s)), NoAnswer)
  }

  predicate IsSuffix<T(==)>(p: seq<T>, q: seq<T>) { |p| <= |q| && q[|q| - |p|..] == p }

  // The commands of one wake-up; a snapshot comes first if at all.
  function CommandsOf(msgs: seq<ApplyMsg>): seq<ApplyMsg> {
    if msgs != [] && msgs[0].ApplySnapshot? then msgs[1..] else msgs
  }

  // Equal answers; of what a wake-up delivers, the commands up to the same last one.
  predicate Agree(x: Answer, y: Answer) {
    if x.Delivered? && y.Delivered? then
      IsSuffix(CommandsOf(x.msgs), CommandsOf(y.msgs)) || IsSuffix(CommandsOf(y.msgs), CommandsOf(x.msgs))
    else x == y
  }

  predicate AllAgree(xs: seq<Answer>, ys: seq<Answer>) {
    |xs| == |ys| && forall k {:trigger Agree(xs[k], ys[k])} :: 0 <= k < |xs| ==> Agree(xs[k], ys[k])
  }

  predicate CanTakeAll(s: Server, calls: seq<Call>)
    decreases |calls|
  {
    calls == [] || (CanTake(s, calls[0]) && CanTakeAll(Take(s, calls[0]).0, calls[1..]))
  }

  function TakeAll(s: Server, calls: seq<Call>): (Server, seq<Answer>)
    requires CanTakeAll(s, calls)
    decreases |calls|
  {
    if calls == [] then (s, [])
    else
      var (s1, answer) := Take(s, calls[0]);
      var (s2, answers) := TakeAll(s1, calls[1..]);
      (s2, [answer] + answers)
  }

  // The calls as the peer that never compacts sees them.
  function WithoutSnapshot(call: Call): Call {
    if call.Snap? then Snap(0, NoSnapshot) else call
  }

  function WithoutSnapshots(calls: seq<Call>): (r: seq<Call>)
    ensures |r| == |calls|
  {
    if calls == [] then [] else [WithoutSnapshot(calls[0])] + WithoutSnapshots(calls[1..])
  }

  lemma ContinuesBoth(a: Server, b: Server, args: AppendArgs)
    requires Compacts(a, b) && b.snapshotIndex <= args.prevLogIndex && Continues(b, args)
    requires a.log[b.snapshotIndex..] == b.log
    ensures Continues(a, args)
  {
    if a.Holds(args.prevLogIndex) && a.At(args.prevLogIndex).term == args.prevLogTerm && !AlreadyCommitted(a, args) {
      SameEntries(a, b, args.prevLogIndex);
      MergedTidy(a, b, args);
      MergedSorted(a, b, args);
    }
  }

  lemma MergedSorted(a: Server, b: Server, args: AppendArgs)
    requires Compacts(a, b) && a.Holds(args.prevLogIndex) && b.snapshotIndex <= args.prevLogIndex
    requires !AlreadyCommitted(a, args)
    requires b.snapshotIndex < |Merge(a, args)| && Merge(b, args) == Merge(a, args)[b.snapshotIndex..]
    requires SortedTerms(Merge(b, args))
    ensures SortedTerms(Merge(a, args))
  {
    var cut := b.snapshotIndex;
    var merged := Merge(a, args);
    assert merged[..cut + 1] == a.log[..cut + 1];
    forall i, j | 0 <= i <= j < |merged|
      ensures merged[i].term <= merged[j].term
    {
      assert i <= cut ==> merged[i] == merged[..cut + 1][i] == a.log[i];
      assert j <= cut ==> merged[j] == merged[..cut + 1][j] == a.log[j];
      assert i >= cut ==> merged[i] == Merge(b, args)[i - cut];
      assert j >= cut ==> merged[j] == Merge(b, args)[j - cut];
      assert merged[cut] == Merge(b, args)[0] == a.log[cut];
    }
  }

  lemma SameCall(a: Server, b: Server, call: Call)
    requires Compacts(a, b) && CanTake(b, call)
    ensures CanTake(a, WithoutSnapshot(call))
    ensures Agree(Take(a, WithoutSnapshot(call)).1, Take(b, call).1)
    ensures Compacts(Take(a, WithoutSnapshot(call)).0, Take(b, call).0)
  {
    match call
    case Vote(args) => SameVote(a, b, args);
    case Append(args) => ContinuesBoth(a, b, args); SameAppend(a, b, args);
    case StandForElection(me) => SameAsk(BeginElection(a, me), BeginElection(b, me), me);
    case CountReply(me, peers, electionTerm, voteCount, reply) =>
      SameCount(a, b, me, peers, electionTerm, voteCount, reply);
    case Submit(command) => SameSubmit(a, b, command);
    case UseReply(peer, args, reply) => SameUse(a, b, peer, args, reply);
    case StepDown(term) =>
    case WakeUp(me, matched) => SameWake(a.(matchIndex := matched), b.(matchIndex := matched), me);
    case Snap(index, data) => SnapshotOfCommitted(a, b, index, data);
    case CrashAndRestart => SameRestart(a, b);
  }

  lemma SameSubmit(a: Server, b: Server, command: Command)
    requires Compacts(a, b) && b.log[|b.log| - 1].term <= b.currentTerm
    ensures a.log[|a.log| - 1].term <= a.currentTerm
    ensures Compacts(Propose(a, command), Propose(b, command))
  {
    assert a.log[|a.log| - 1] == b.log[|b.log| - 1];
    assert (a.log + [Entry(a.currentTerm, command)])[b.snapshotIndex..] == b.log + [Entry(b.currentTerm, command)];
  }

  lemma SameCount(a: Server, b: Server, me: nat, peers: nat, electionTerm: nat, voteCount: nat, reply: VoteReply)
    requires Compacts(a, b)
    ensures CountVote(a, me, peers, electionTerm, voteCount, reply).1
         == CountVote(b, me, peers, electionTerm, voteCount, reply).1
    ensures Compacts(CountVote(a, me, peers, electionTerm, voteCount, reply).0,
                     CountVote(b, me, peers, electionTerm, voteCount, reply).0)
  {
  }

  lemma SameUse(a: Server, b: Server, peer: nat, args: AppendArgs, reply: AppendReply)
    requires Compacts(a, b) && peer < |b.nextIndex| == |b.matchIndex|
    ensures Compacts(UseAppendReply(a, peer, args, reply), UseAppendReply(b, peer, args, reply))
  {
  }

  /// ## Commit and delivery

  // With the same match indices both commit the same.
  lemma SameCommit(a: Server, b: Server, me: nat)
    requires Compacts(a, b) && a.matchIndex == b.matchIndex && me < |b.matchIndex|
    requires Median(Matched(b, me)) > b.commitIndex ==> b.Holds(Median(Matched(b, me)))
    ensures Matched(a, me) == Matched(b, me)
    ensures Median(Matched(a, me)) > a.commitIndex ==> a.Holds(Median(Matched(a, me)))
    ensures Compacts(AdvanceCommit(a, me), AdvanceCommit(b, me))
    ensures AdvanceCommit(a, me) == a <==> AdvanceCommit(b, me) == b
  {
    assert a.LogLen() == b.LogLen();
  }

  // The commands of a log after `from` up to `to`, each with its index.
  function Between(log: seq<Entry>, from: nat, to: nat): (msgs: seq<ApplyMsg>)
    requires from <= to < |log|
    ensures |msgs| == to - from
    ensures forall k :: 0 <= k < |msgs| ==> msgs[k] == ApplyCommand(from + 1 + k, log[from + 1 + k].command)
  {
    seq(to - from, k requires 0 <= k < to - from => ApplyCommand(from + 1 + k, log[from + 1 + k].command))
  }

  lemma LaterIsSuffix(log: seq<Entry>, from: nat, mid: nat, to: nat)
    requires from <= mid <= to < |log|
    ensures IsSuffix(Between(log, mid, to), Between(log, from, to))
  {
    var x, y := Between(log, mid, to), Between(log, from, to);
    assert y[|y| - |x|..] == x;
  }

  // s holds the entries of `log` from its snapshot on.
  predicate HoldsTail(log: seq<Entry>, s: Server) {
    && s.Valid() && s.snapshotIndex < |log| && s.log == log[s.snapshotIndex..]
    && (s.lastApplied < s.commitIndex ==> s.snapshotIndex <= s.lastApplied)
  }

  // Such a peer delivers the commands of `log` between lastApplied and commitIndex.
  lemma {:induction false} DeliversBetween(log: seq<Entry>, s: Server)
    requires HoldsTail(log, s)
    ensures s.lastApplied <= Max(s.lastApplied, s.commitIndex) < |log|
    ensures DeliverAll(s) == (s.(lastApplied := Max(s.lastApplied, s.commitIndex)),
                              Between(log, s.lastApplied, Max(s.lastApplied, s.commitIndex)))
    decreases s.commitIndex - s.lastApplied
  {
    if s.lastApplied < s.commitIndex {
      var (next, msg) := Deliver(s);
      DeliversBetween(log, next);
      assert msg == ApplyCommand(s.lastApplied + 1, log[s.lastApplied + 1].command);
      assert Between(log, s.lastApplied, s.commitIndex) == [msg] + Between(log, s.lastApplied + 1, s.commitIndex);
    }
  }

  // Both deliver up to the same commitIndex, from wherever each has got to, and the same commands.
  lemma SameDelivery(log: seq<Entry>, a: Server, b: Server)
    requires HoldsTail(log, a) && HoldsTail(log, b) && a.commitIndex == b.commitIndex
    ensures IsSuffix(DeliverAll(a).1, DeliverAll(b).1) || IsSuffix(DeliverAll(b).1, DeliverAll(a).1)
    ensures forall k :: 0 <= k < |DeliverAll(a).1| ==> DeliverAll(a).1[k].ApplyCommand?
    ensures forall k :: 0 <= k < |DeliverAll(b).1| ==> DeliverAll(b).1[k].ApplyCommand?
  {
    DeliversBetween(log, a);
    DeliversBetween(log, b);
    if a.lastApplied < a.commitIndex && b.lastApplied < b.commitIndex {
      if a.lastApplied <= b.lastApplied {
        LaterIsSuffix(log, a.lastApplied, b.lastApplied, a.commitIndex);
      } else {
        LaterIsSuffix(log, b.lastApplied, a.lastApplied, a.commitIndex);
      }
    }
  }

  lemma SameAfterDelivery(a: Server, b: Server)
    requires Compacts(a, b) && b.snapshotIndex <= b.lastApplied
    ensures HoldsTail(a.log, a) && HoldsTail(a.log, b)
    ensures Compacts(DeliverAll(a).0, DeliverAll(b).0)
  {
    assert a.log[0..] == a.log;
    DeliversBetween(a.log, a);
    DeliversBetween(a.log, b);
  }

  lemma SameSnapshotDelivery(a: Server, b: Server)
    requires Compacts(a, b)
    ensures DeliverSnapshot(a) == (a, []) && Compacts(a, DeliverSnapshot(b).0)
    ensures DeliverSnapshot(b).0 == b.(lastApplied := DeliverSnapshot(b).0.lastApplied)
    ensures DeliverSnapshot(b).1 == [] || (|DeliverSnapshot(b).1| == 1 && DeliverSnapshot(b).1[0].ApplySnapshot?)
    ensures b.snapshotIndex <= b.lastApplied || b.snapshot != NoSnapshot ==>
              b.snapshotIndex <= DeliverSnapshot(b).0.lastApplied
  {
  }

  lemma CommandsAfter(first: seq<ApplyMsg>, rest: seq<ApplyMsg>)
    requires first == [] || (|first| == 1 && first[0].ApplySnapshot?)
    requires forall k :: 0 <= k < |rest| ==> rest[k].ApplyCommand?
    ensures CommandsOf(first + rest) == rest
  {
    assert first == [] ==> first + rest == rest;
    assert |first| == 1 ==> (first + rest)[1..] == rest;
  }

  // A snapshot delivered first makes no difference to the commands.
  lemma AgreeAfter(first: seq<ApplyMsg>, x: seq<ApplyMsg>, y: seq<ApplyMsg>)
    requires first == [] || (|first| == 1 && first[0].ApplySnapshot?)
    requires forall k :: 0 <= k < |x| ==> x[k].ApplyCommand?
    requires forall k :: 0 <= k < |y| ==> y[k].ApplyCommand?
    requires IsSuffix(x, y) || IsSuffix(y, x)
    ensures Agree(Delivered([] + x), Delivered(first + y))
  {
    CommandsAfter([], x);
    CommandsAfter(first, y);
  }

  // Once a snapshot is out of the way and the leader has looked for something to commit.
  lemma SameRest(a: Server, b: Server, first: seq<ApplyMsg>)
    requires Compacts(a, b) && b.snapshotIndex <= b.lastApplied
    requires first == [] || (|first| == 1 && first[0].ApplySnapshot?)
    ensures HoldsTail(a.log, a) && HoldsTail(a.log, b)
    ensures Compacts(DeliverAll(a).0, DeliverAll(b).0)
    ensures Agree(Delivered([] + DeliverAll(a).1), Delivered(first + DeliverAll(b).1))
  {
    SameAfterDelivery(a, b);
    SameDelivery(a.log, a, b);
    AgreeAfter(first, DeliverAll(a).1, DeliverAll(b).1);
  }

  lemma FollowerWake(a: Server, b: Server, me: nat)
    requires Compacts(a, b) && CanWake(b, me) && b.role != Leader
    ensures CanWake(a, me) && Compacts(Wake(a, me).0, Wake(b, me).0)
    ensures Agree(Delivered(Wake(a, me).1), Delivered(Wake(b, me).1))
  {
    SameSnapshotDelivery(a, b);
    var (b1, first) := DeliverSnapshot(b);
    SameRest(a, b1, first);
  }

  lemma LeaderWake(a: Server, b: Server, me: nat)
    requires Compacts(a, b) && a.matchIndex == b.matchIndex && CanWake(b, me) && b.role == Leader
    ensures CanWake(a, me) && Compacts(Wake(a, me).0, Wake(b, me).0)
    ensures Agree(Delivered(Wake(a, me).1), Delivered(Wake(b, me).1))
  {
    SameSnapshotDelivery(a, b);
    var (b1, first) := DeliverSnapshot(b);
    assert Matched(b1, me) == Matched(b, me);
    SameCommit(a, b1, me);
    if AdvanceCommit(b1, me) == b1 {
      CommandsAfter(first, []);
      assert first + [] == first;
    } else {
      SameRest(AdvanceCommit(a, me), AdvanceCommit(b1, me), first);
    }
  }

  lemma SameWake(a: Server, b: Server, me: nat)
    requires Compacts(a, b) && a.matchIndex == b.matchIndex && CanWake(b, me)
    ensures CanWake(a, me) && Compacts(Wake(a, me).0, Wake(b, me).0)
    ensures Agree(Delivered(Wake(a, me).1), Delivered(Wake(b, me).1))
  {
    if b.role == Leader {
      LeaderWake(a, b, me);
    } else {
      FollowerWake(a, b, me);
    }
  }

  /// ## The refinement

  // Any run of calls, with snapshots of committed entries and crashes anywhere in it, is answered
  // as by a peer that keeps its whole log, and leaves the same log above the snapshot.
  lemma {:induction false} CompactionRefines(a: Server, b: Server, calls: seq<Call>)
    requires Compacts(a, b) && CanTakeAll(b, calls)
    ensures CanTakeAll(a, WithoutSnapshots(calls))
    ensures AllAgree(TakeAll(a, WithoutSnapshots(calls)).1, TakeAll(b, calls).1)
    ensures Compacts(TakeAll(a, WithoutSnapshots(calls)).0, TakeAll(b, calls).0)
    decreases |calls|
  {
    if calls != [] {
      SameCall(a, b, calls[0]);
      CompactionRefines(Take(a, WithoutSnapshot(calls[0])).0, Take(b, calls[0]).0, calls[1..]);
      assert WithoutSnapshots(calls)[1..] == WithoutSnapshots(calls[1..]);
      AgreeCons(Take(a, WithoutSnapshot(calls[0])).1, Take(b, calls[0]).1,
                TakeAll(Take(a, WithoutSnapshot(calls[0])).0, WithoutSnapshots(calls[1..])).1,
                TakeAll(Take(b, calls[0]).0, calls[1..]).1);
    }
  }

  lemma AgreeCons(x: Answer, y: Answer, xs: seq<Answer>, ys: seq<Answer>)
    requires Agree(x, y) && AllAgree(xs, ys)
    ensures AllAgree([x] + xs, [y] + ys)
  {
    var xs', ys' := [x] + xs, [y] + ys;
    forall k | 0 <= k < |xs'| ensures Agree(xs'[k], ys'[k]) {
      assert k > 0 ==> Agree(xs[k - 1], ys[k - 1]);
    }
  }

  lemma BootsAlike()
    ensures Compacts(Boot(), Boot())
  {
    assert [DUMMY][0..] == [DUMMY];
  }
}
