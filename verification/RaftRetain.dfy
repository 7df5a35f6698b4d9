/** Leader completeness, and what it makes of an accepted AppendEntries. */
module RaftRetain {
  import opened RaftTypes
  import opened RaftCluster
  import opened RaftElection
  import opened RaftLog

  ghost predicate Quorums(n: nat, h: History) {
    forall term :: term in h.reigns ==>
      && |h.reigns[term].quorum| >= n / 2 + 1
      && forall v :: v in h.reigns[term].quorum ==> v < n
  }

  lemma QuorumsOf(w: World)
    requires ElectionInv(w)
    ensures Quorums(|w.c.nodes|, w.h)
  {
    forall term | term in w.h.reigns
      ensures |w.h.reigns[term].quorum| >= |w.c.nodes| / 2 + 1
      ensures forall v :: v in w.h.reigns[term].quorum ==> v < |w.c.nodes|
    {
      assert ReignElected(w.c, w.h, term);
    }
  }

  // Whatever was committed in a term is in the log of every leader of a later term from its
  // first moment in office: the voter who both stored it and elected that leader kept it, because
  // no leader in between had abandoned it.
  lemma {:induction false} CommittedReachesReign(n: nat, h: History, term: nat, k: nat, later: nat)
    requires Quorums(n, h) && ReignsKeep(h)
    requires Committed(n, h, term, k) && term < later && later in h.reigns
    ensures UpTo(h, term, k) <= h.reigns[later].initial
    decreases later
  {
    var q :| AckQuorum(n, h, term, k, q);
    var v := Overlap(q, h.reigns[later].quorum, n);
    assert ReignKeeps(h, later);
    assert Keeps(h, v, h.reigns[later].initial, later);
    assert Acked(h, v, term, k);
    if !(UpTo(h, term, k) <= h.reigns[later].initial) {
      var t: nat :| term < t < later && t in h.reigns && !(UpTo(h, term, k) <= h.reigns[t].initial);
      CommittedReachesReign(n, h, term, k, t);
    }
  }

  lemma SettledReaches(n: nat, h: History, p: seq<Entry>, bound: nat, later: nat)
    requires Quorums(n, h) && ReignsKeep(h) && ReignsOK(h)
    requires Settled(n, h, p, bound) && bound <= later && later in h.reigns
    ensures p <= h.reigns[later].log
  {
    var r := h.reigns[later];
    assert ReignOK(h, later);
    if p <= [DUMMY] {
      assert [DUMMY] <= r.log;
    } else {
      var term: nat, k: nat :| term <= bound && CommittedBy(n, h, p, term, k);
      if term < later {
        CommittedReachesReign(n, h, term, k, later);
      }
    }
  }

  // Any two settled prefixes are prefixes of one another.
  lemma SettledComparable(n: nat, h: History, p: seq<Entry>, bp: nat, q: seq<Entry>, bq: nat)
    requires Quorums(n, h) && ReignsKeep(h) && ReignsOK(h)
    requires Settled(n, h, p, bp) && Settled(n, h, q, bq)
    ensures p <= q || q <= p
  {
    if !(p <= [DUMMY]) && !(q <= [DUMMY]) {
      var tp: nat, kp: nat :| tp <= bp && CommittedBy(n, h, p, tp, kp);
      var tq: nat, kq: nat :| tq <= bq && CommittedBy(n, h, q, tq, kq);
      var last := if tp <= tq then tq else tp;
      SettledReaches(n, h, p, tp, last);
      SettledReaches(n, h, q, tq, last);
    } else if !(q <= [DUMMY]) {
      SettledStartsAtDummy(n, h, q, bq);
    } else if !(p <= [DUMMY]) {
      SettledStartsAtDummy(n, h, p, bp);
    }
  }

  lemma SettledStartsAtDummy(n: nat, h: History, p: seq<Entry>, bound: nat)
    requires ReignsOK(h) && Settled(n, h, p, bound)
    ensures |p| >= 1 ==> p[0] == DUMMY
  {
    if !(p <= [DUMMY]) {
      var term: nat, k: nat :| term <= bound && CommittedBy(n, h, p, term, k);
      assert ReignOK(h, term);
      if |p| >= 1 {
        assert p[0] == UpTo(h, term, k)[0];
      }
    }
  }

  /// ## An accepted request

  // Cutting a log at a point where it agrees with r, and adding r's entries from there on.
  lemma Graft(log: seq<Entry>, r: seq<Entry>, from: nat, prev: nat, entries: seq<Entry>)
    requires prev <= from < |log| && from <= prev + |entries| < |r|
    requires log[..from + 1] <= r && entries == r[prev + 1..prev + |entries| + 1]
    ensures log[..from + 1] + entries[from - prev..] == r[..prev + |entries| + 1]
  {
  }

  lemma MergeIs(s: Server, args: AppendArgs, r: seq<Entry>)
    requires s.Valid() && s.snapshotIndex == 0 && s.Holds(args.prevLogIndex) && args.End() < |r|
    requires s.log[..args.prevLogIndex + 1] <= r && s.log[..s.commitIndex + 1] <= r
    requires args.entries == r[args.prevLogIndex + 1..args.End() + 1]
    requires !AlreadyCommitted(s, args) && |args.entries| > 0
    ensures Merge(s, args) == r[..args.End() + 1]
  {
    Graft(s.log, r, if s.commitIndex > args.prevLogIndex then s.commitIndex else args.prevLogIndex,
          args.prevLogIndex, args.entries);
  }

  lemma ShorterPrefix(log: seq<Entry>, r: seq<Entry>, end: nat, upto: nat)
    requires end <= upto < |log| && log[..upto + 1] <= r
    ensures r[..end + 1] <= log
  {
    assert r[..end + 1] == log[..upto + 1][..end + 1];
  }

  // The log after a successful request, in terms of the leader's log r.
  lemma MergedLog(s: Server, args: AppendArgs, r: seq<Entry>)
    requires s.Valid() && s.snapshotIndex == 0 && s.Holds(args.prevLogIndex) && args.End() < |r|
    requires s.log[..args.prevLogIndex + 1] <= r && s.log[..s.commitIndex + 1] <= r
    requires args.entries == r[args.prevLogIndex + 1..args.End() + 1]
    ensures Accept(s, args).log == s.log || Accept(s, args).log == r[..args.End() + 1]
    ensures r[..args.End() + 1] <= Accept(s, args).log
  {
    if AlreadyCommitted(s, args) {
      ShorterPrefix(s.log, r, args.End(), s.commitIndex);
    } else if |args.entries| > 0 {
      MergeIs(s, args, r);
    }
  }

  // On success the receiver's log starts with the leader's log up to the request's last entry,
  // and it is either unchanged or exactly that.
  lemma AcceptedLog(n: nat, h: History, to: nat, s: Server, args: AppendArgs)
    requires NodeShape(n, s) && ReignsOK(h) && LogOK(h, s.log) && RequestOK(h, to, args)
    requires args.term >= s.currentTerm && AnswerAppend(s, args).1.success
    requires s.log[..s.commitIndex + 1] <= h.reigns[args.term].log
    ensures var s' := AnswerAppend(s, args).0;
            && s'.currentTerm == args.term
            && h.reigns[args.term].log[..args.End() + 1] <= s'.log
            && (s'.log == s.log || s'.log == h.reigns[args.term].log[..args.End() + 1])
  {
    var r := h.reigns[args.term].log;
    assert ReignOK(h, args.term);
    LogsMatch(h, s.log, r, args.prevLogIndex);
    MergedLog(Follow(s, args), args, r);
  }

  // Whatever the arguments, a committed prefix is never rewritten and commitIndex never falls.
  lemma CommittedPrefixStays(n: nat, s: Server, args: AppendArgs)
    requires NodeShape(n, s)
    ensures var s' := AnswerAppend(s, args).0;
            && s.commitIndex <= s'.commitIndex < |s'.log| && s.commitIndex < |s.log|
            && s'.log[..s.commitIndex + 1] == s.log[..s.commitIndex + 1]
            && s'.lastApplied == s.lastApplied
            && (s'.commitIndex != s.commitIndex ==>
                  s'.commitIndex <= args.leaderCommit && AnswerAppend(s, args).1.success)
  {
  }
}
