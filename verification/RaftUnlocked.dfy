/** What the AppendEntries handler risks by letting go of its lock between its checks and its store
    (src/raft1/raft.go:381-383), told by the one other handler that matters most there: a vote.

    A peer that has acknowledged entries promises to vote only for candidates whose log is at least
    as up to date as its own with these entries.  The handler as one step keeps the promise in
    either order; the handler in two halves with a vote between them does not.
 */
module RaftUnlocked {
  import opened RaftTypes

  // The first half: everything up to the unlock, with the reply already decided.
  function Check(s: Server, args: AppendArgs): (Server, AppendReply)
    requires s.Valid() && s.snapshotIndex <= args.prevLogIndex
  {
    (if args.term < s.currentTerm then s else Follow(s, args), AnswerAppend(s, args).1)
  }

  // The second half looks at nothing but commitIndex and the log.
  function Store(s: Server, args: AppendArgs): Server
    requires s.Valid() && s.Holds(args.prevLogIndex)
  {
    Accept(s, args)
  }

  // With nothing in between the halves are the handler.
  lemma HalvesMakeHandler(s: Server, args: AppendArgs)
    requires s.Valid() && s.snapshotIndex <= args.prevLogIndex
    ensures Check(s, args).1 == AnswerAppend(s, args).1
    ensures Check(s, args).0.Valid()
    ensures AnswerAppend(s, args).1.success ==>
              Check(s, args).0.Holds(args.prevLogIndex) && Store(Check(s, args).0, args) == AnswerAppend(s, args).0
    ensures !AnswerAppend(s, args).1.success ==> Check(s, args).0 == AnswerAppend(s, args).0
  {
  }

  // As one step, whichever comes first: after the entries the vote is granted only to a candidate
  // at least as up to date as they are, and after the vote the entries are refused.
  lemma WholeKeepsPromise(s: Server, args: AppendArgs, vote: VoteArgs)
    requires s.Valid() && s.snapshotIndex <= args.prevLogIndex && args.term < vote.term
    ensures var (after, reply) := AnswerAppend(s, args);
            && |after.log| >= 1
            && (AnswerVote(after, vote).1.voteGranted ==> UpToDate(after, vote))
    ensures var (after, reply) := AnswerVote(s, vote);
            && after.Valid()
            && (reply.voteGranted ==> !AnswerAppend(after, args).1.success)
  {
  }

  // In two halves, the peer both acknowledges the entries to the leader of the older term and votes
  // in the newer one for a candidate that is behind them, exactly when that candidate is up to date
  // with the log as it was before them and not as it is after.
  lemma SplitBreaksPromise(s: Server, args: AppendArgs, vote: VoteArgs)
    requires s.Valid() && s.snapshotIndex <= args.prevLogIndex && args.term < vote.term
    requires AnswerAppend(s, args).1.success
    ensures var checked := Check(s, args).0; var (voted, reply) := AnswerVote(checked, vote);
            && voted.Valid() && voted.Holds(args.prevLogIndex) && |Store(voted, args).log| >= 1
            && Store(voted, args).log == AnswerAppend(s, args).0.log
            && (reply.voteGranted && !UpToDate(Store(voted, args), vote)
                <==> UpToDate(s, vote) && !UpToDate(AnswerAppend(s, args).0, vote))
  {
    HalvesMakeHandler(s, args);
    var voted := AnswerVote(Check(s, args).0, vote).0;
    assert AlreadyCommitted(voted, args) == AlreadyCommitted(Check(s, args).0, args);
    assert UpToDate(Check(s, args).0, vote) == UpToDate(s, vote);
  }

  // Such a case: a candidate with an empty log asks for its vote in term 2 while a peer with an
  // empty log stores the first entry of term 1.
  lemma SplitCase()
    ensures var s, args, vote := Boot(), AppendArgs(1, 0, 0, 0, [Entry(1, Cmd("a"))], 0), VoteArgs(2, 2, 0, 0);
            && AnswerAppend(s, args).1.success
            && UpToDate(s, vote) && |AnswerAppend(s, args).0.log| >= 1 && !UpToDate(AnswerAppend(s, args).0, vote)
  {
    var s, args := Boot(), AppendArgs(1, 0, 0, 0, [Entry(1, Cmd("a"))], 0);
    var f := Follow(s, args);
    assert f == s.(currentTerm := 1);
    assert f.At(0) == DUMMY && !AlreadyCommitted(f, args);
    assert Merge(f, args) == [DUMMY] + [Entry(1, Cmd("a"))];
    assert AnswerAppend(s, args).0 == f.(log := [DUMMY, Entry(1, Cmd("a"))]);
  }
}
