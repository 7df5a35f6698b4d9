/** One Raft peer as the object of src/raft1/raft.go: fields updated in place, a disk that persist()
    overwrites, and a channel that receives what is delivered.  Each method is one critical section
    of the source and computes the function of the same purpose in RaftTypes.
 */
module RaftServer {
  import RT = RaftTypes
  import opened RaftTypes
  import opened RaftEffects

  datatype Disk = Blank | Saved(state: Durable)

  // What a peer that starts from this disk begins with.
  function Reload(disk: Disk): Server
    requires disk.Saved? ==> |disk.state.log| >= 1
  {
    match disk
    case Blank => Boot()
    case Saved(d) => Restart(d)
  }

  // A snapshot index is new and lies in the log.
  predicate Effective(s: Server, index: int) {
    s.snapshotIndex < index <= s.LogLen() - 1
  }

  /// ## The order of delivery

  // Delivers one entry after the other up to commitIndex.
  function DeliverAll(s: Server): (Server, seq<ApplyMsg>)
    requires s.Valid() && (s.lastApplied < s.commitIndex ==> s.snapshotIndex <= s.lastApplied)
    decreases s.commitIndex - s.lastApplied
  {
    if s.lastApplied >= s.commitIndex then (s, [])
    else
      var (next, msg) := Deliver(s);
      var (last, msgs) := DeliverAll(next);
      (last, [msg] + msgs)
  }

  // A peer that holds a snapshot it has not delivered delivers it first.
  function DeliverSnapshot(s: Server): (Server, seq<ApplyMsg>) {
    if s.snapshot != NoSnapshot && s.lastApplied < s.snapshotIndex then
      (s.(lastApplied := s.snapshotIndex), [ApplySnapshot(s.snapshotIndex, s.snapshotTerm, s.snapshot)])
    else (s, [])
  }

  // A wake-up that finds commands to deliver below an undelivered snapshot must hold the snapshot's
  // bytes, and the leader's middle match index must lie in its log.
  predicate CanWake(s: Server, me: nat) {
    && s.Valid()
    && (s.snapshotIndex <= s.lastApplied || s.snapshot != NoSnapshot)
    && (s.role == Leader ==>
          && me < |s.matchIndex|
          && (Median(Matched(s, me)) > s.commitIndex ==> s.Holds(Median(Matched(s, me)))))
  }

  // A follower delivers all it has committed.  A leader first looks for something new to commit,
  // and delivers only if there is.
  function DeliverCommands(s: Server, me: nat): (Server, seq<ApplyMsg>)
    requires CanWake(s, me) && s.snapshotIndex <= s.lastApplied
  {
    if s.role != Leader then DeliverAll(s)
    else
      var s' := AdvanceCommit(s, me);
      if s' == s then (s, []) else DeliverAll(s')
  }

  function Wake(s: Server, me: nat): (Server, seq<ApplyMsg>)
    requires CanWake(s, me)
  {
    var (s1, first) := DeliverSnapshot(s);
    var (s2, rest) := DeliverCommands(s1, me);
    (s2, first + rest)
  }

  // Exactly the entries after lastApplied up to commitIndex are delivered, in index order.
  lemma {:induction false} DeliversCommitted(s: Server, k: nat)
    requires s.Valid() && (s.lastApplied < s.commitIndex ==> s.snapshotIndex <= s.lastApplied)
    ensures var (last, msgs) := DeliverAll(s);
            && last == s.(lastApplied := Max(s.lastApplied, s.commitIndex))
            && |msgs| == Max(0, s.commitIndex - s.lastApplied)
            && (k < |msgs| ==> msgs[k] == ApplyCommand(s.lastApplied + 1 + k, s.At(s.lastApplied + 1 + k).command))
    decreases s.commitIndex - s.lastApplied
  {
    if s.lastApplied < s.commitIndex {
      DeliversCommitted(Deliver(s).0, if k > 0 then k - 1 else 0);
    }
  }

  lemma DeliverSnapshotIs(s: Server)
    requires s.Valid()
    ensures var held := s.snapshot != NoSnapshot && s.lastApplied < s.snapshotIndex;
            && DeliverSnapshot(s).0 == s.(lastApplied := if held then s.snapshotIndex else s.lastApplied)
            && |DeliverSnapshot(s).1| == (if held then 1 else 0)
            && (held ==> DeliverSnapshot(s).1 == [ApplySnapshot(s.snapshotIndex, s.snapshotTerm, s.snapshot)])
  {
  }

  // The commands of the log at the indices from lastApplied up to commitIndex.
  lemma DeliverAllHasEffect(s: Server)
    requires s.Valid() && (s.lastApplied < s.commitIndex ==> s.snapshotIndex <= s.lastApplied)
    ensures var to, msgs := Max(s.lastApplied, s.commitIndex), DeliverAll(s).1;
            && DeliverAll(s).0 == s.(lastApplied := to)
            && CommandsUpTo(s, s.lastApplied, to, msgs)
  {
    DeliversCommitted(s, 0);
    forall i | s.lastApplied < i <= Max(s.lastApplied, s.commitIndex)
      ensures s.Holds(i) && DeliverAll(s).1[i - s.lastApplied - 1] == ApplyCommand(i, s.At(i).command)
    {
      DeliversCommitted(s, i - s.lastApplied - 1);
    }
  }

  lemma CommandsHaveEffect(s: Server, me: nat)
    requires CanWake(s, me) && s.snapshotIndex <= s.lastApplied
    ensures var (s', msgs) := DeliverCommands(s, me);
            var to := if s.role != Leader || s'.commitIndex > s.commitIndex
                      then Max(s.lastApplied, s'.commitIndex) else s.lastApplied;
            && s' == s.(commitIndex := s'.commitIndex, lastApplied := to)
            && (s.role != Leader ==> s'.commitIndex == s.commitIndex)
            && (s.role == Leader ==> CommitEffect(s, me, s.(commitIndex := s'.commitIndex)))
            && CommandsUpTo(s, s.lastApplied, to, msgs)
  {
    if s.role != Leader {
      DeliverAllHasEffect(s);
    } else {
      CommitHasEffect(s, me);
      var s1 := AdvanceCommit(s, me);
      if s1 != s {
        DeliverAllHasEffect(s1);
        CommandsLookAt(s, s1, s.lastApplied, Max(s.lastApplied, s1.commitIndex), DeliverAll(s1).1);
      }
    }
  }

  // A wake-up delivers what it should and nothing else, and a leader commits by the quorum rule.
  lemma WakeHasEffect(s: Server, me: nat)
    requires CanWake(s, me)
    ensures WakeEffect(s, Wake(s, me).0, Wake(s, me).1)
    ensures s.role == Leader ==> CommitEffect(s, me, s.(commitIndex := Wake(s, me).0.commitIndex))
  {
    var s1 := DeliverSnapshot(s).0;
    DeliverSnapshotIs(s);
    CommandsHaveEffect(s1, me);
    var (s2, rest) := DeliverCommands(s1, me);
    CommandsLookAt(s, s1, s1.lastApplied, s2.lastApplied, rest);
    assert DeliverSnapshot(s).1 == [] ==> Wake(s, me).1 == rest;
    assert DeliverSnapshot(s).1 != [] ==> Wake(s, me).1[1..] == rest;
    if s.role == Leader {
      CommitLooksAt(s, s1, me, Wake(s, me).0.commitIndex);
    }
  }

  lemma CommandsLookAt(s: Server, s1: Server, from: nat, to: nat, msgs: seq<ApplyMsg>)
    requires CommandsUpTo(s1, from, to, msgs) && s1.log == s.log && s1.snapshotIndex == s.snapshotIndex
    ensures CommandsUpTo(s, from, to, msgs)
  {
    forall i | from < i <= to ensures s.Holds(i) && msgs[i - from - 1] == ApplyCommand(i, s.At(i).command) {
      assert s1.Holds(i) && s1.At(i) == s.At(i);
    }
  }

  lemma CommitLooksAt(s: Server, s1: Server, me: nat, commit: nat)
    requires s1 == s.(lastApplied := s1.lastApplied) && CommitEffect(s1, me, s1.(commitIndex := commit))
    ensures CommitEffect(s, me, s.(commitIndex := commit))
  {
    var xs := s.matchIndex[me := s.LogLen() - 1];
    assert xs == s1.matchIndex[me := s1.LogLen() - 1];
    var k :| GreatestReached(xs, k) && CommitsAt(s1, k, commit);
    assert CommitsAt(s, k, commit);
  }

  // A snapshot survives a crash, with its index and the term the log had there, and is the one thing
  // the restarted peer delivers first.
  lemma SnapshotSurvives(s: Server, index: int, data: Snapshot, me: nat)
    requires s.Valid() && s.snapshotIndex < index < s.LogLen()
    requires data.Bytes? && |data.data| > 0
    ensures var r := Restart(Persist(Compact(s, index, data)));
            && (r.snapshot, r.snapshotIndex, r.snapshotTerm) == (data, index, s.At(index).term)
            && CanWake(r, me)
            && Wake(r, me).1 == [ApplySnapshot(index, s.At(index).term, data)]
            && Wake(r, me).0.lastApplied == index
  {
    SnapshotHasEffect(s, index, data);
    var r := Restart(Persist(Compact(s, index, data)));
    WakeHasEffect(r, me);
  }

  // A peer that crashes and restarts from what it last persisted keeps term, vote and log.
  lemma RestartKeepsDurable(s: Server)
    requires s.Valid()
    ensures var r := Restart(Persist(s));
            && r.currentTerm == s.currentTerm && r.votedFor == s.votedFor && r.log == s.log
            && r.snapshotIndex == s.snapshotIndex && Persist(r) == Persist(s)
            && (s.snapshot.Bytes? && |s.snapshot.data| > 0 ==>
                  r.snapshot == s.snapshot && r.snapshotTerm == s.log[0].term)
            && r.role == Follower && r.commitIndex == 0 && r.lastApplied == 0
            && (r.Valid() <==> r.LogLen() >= 1)
  {
  }

  /// ## Searching a sorted log

  lemma {:induction false} FirstIsFirst(log: seq<Entry>, term: nat, hi: nat, low: nat)
    requires SortedTerms(log) && low <= hi < |log|
    requires forall i :: 0 <= i < low ==> log[i].term < term
    requires forall i :: low <= i < hi ==> log[i].term >= term
    ensures FirstAtLeast(log, term, hi) == low
  {
    if hi > low {
      FirstIsFirst(log, term, hi - 1, low);
    }
  }

  lemma {:induction false} LastIsLast(log: seq<Entry>, term: nat, hi: nat, last: nat)
    requires last <= hi < |log|
    requires last == 0 || log[last].term <= term
    requires forall i :: last < i <= hi ==> log[i].term > term
    ensures LastAtMost(log, term, hi) == last
  {
    if hi > last {
      LastIsLast(log, term, hi - 1, last);
    }
  }

  // The position findFirstIndex returns is the start of the run of `term` that ends at hi.
  lemma {:induction false} FindFirstIsStart(s: Server, term: nat, hi: nat)
    requires SortedTerms(s.log) && hi < |s.log| && s.log[hi].term == term
    requires s.log[0].term == s.snapshotTerm < term
    ensures 1 <= FindFirst(s, term, hi) <= hi
    ensures forall i :: FindFirst(s, term, hi) <= i <= hi ==> s.log[i].term == term
    ensures s.log[FindFirst(s, term, hi) - 1].term < term
    decreases hi
  {
    if s.log[hi - 1].term >= term {
      FindFirstIsStart(s, term, hi - 1);
    }
  }

  // The hint of a rejection points at the first entry of the conflicting term.
  lemma HintIsStart(s: Server, args: AppendArgs)
    requires s.Valid() && s.snapshotIndex <= args.prevLogIndex
    requires SortedTerms(s.log) && s.log[0].term == s.snapshotTerm < AnswerAppend(s, args).1.xTerm
    ensures var first, term := AnswerAppend(s, args).1.xIndex, AnswerAppend(s, args).1.xTerm;
            && s.snapshotIndex < first <= args.prevLogIndex < s.LogLen()
            && s.At(first - 1).term < term
            && forall i :: first <= i <= args.prevLogIndex ==> s.At(i).term == term
  {
    var prev, reply := args.prevLogIndex - s.snapshotIndex, AnswerAppend(s, args).1;
    assert s.log[prev].term == reply.xTerm;
    FindFirstIsStart(s, reply.xTerm, prev);
    assert FindFirst(Follow(s, args), reply.xTerm, prev) == FindFirst(s, reply.xTerm, prev);
  }

  class Raft {
    const peers: nat
    const me: nat

    // durable
    var currentTerm: nat
    var votedFor: int
    var log: seq<Entry>
    var snapshotIndex: nat
    // volatile
    var snapshotTerm: nat
    var snapshot: Snapshot
    var commitIndex: nat
    var lastApplied: nat
    var nextIndex: seq<int>
    var matchIndex: seq<int>
    var role: Role
    // the persister and the apply channel
    var disk: Disk
    var applyCh: seq<ApplyMsg>

    ghost function View(): Server
      reads this
    {
      Server(currentTerm, votedFor, log, commitIndex, lastApplied, nextIndex, matchIndex, role,
             snapshotIndex, snapshotTerm, snapshot)
    }

    // Between critical sections the disk holds the current term, vote, log and snapshot.
    ghost predicate Valid()
      reads this
    {
      && me < peers
      && View().Valid()
      && (disk.Saved? ==> disk.state == Persist(View()))
      && (disk.Blank? ==> Persist(View()) == Persist(Boot()))
      && lastApplied <= Max(commitIndex, snapshotIndex)
      && |nextIndex| == |matchIndex|
      && (role == Leader ==> |nextIndex| == peers)
    }

    constructor Make(peers: nat, me: nat, disk: Disk)
      requires me < peers
      requires disk.Saved? ==> |disk.state.log| >= 1 && disk.state.snapshot == Stored(disk.state.snapshot)
      ensures Valid() && this.disk == disk && this.applyCh == []
      ensures View() == Reload(disk)
    {
      this.peers, this.me, this.disk, this.applyCh := peers, me, disk, [];
      this.currentTerm, this.votedFor, this.log := 0, -1, [DUMMY];
      this.commitIndex, this.lastApplied := 0, 0;
      this.snapshotIndex, this.snapshotTerm, this.snapshot := 0, 0, NoSnapshot;
      this.nextIndex, this.matchIndex, this.role := [], [], Follower;
      new;
      ReadPersist();
    }

    // A restarted peer is not ready to commit or deliver anything.
    method ReadPersist()
      requires me < peers && View() == Boot()
      requires disk.Saved? ==> |disk.state.log| >= 1 && disk.state.snapshot == Stored(disk.state.snapshot)
      modifies this`currentTerm, this`votedFor, this`log, this`snapshotIndex, this`snapshot, this`snapshotTerm
      ensures View() == Reload(disk) && Valid()
    {
      if disk.Blank? {
        return;
      }
      var d := disk.state;
      currentTerm, votedFor, log, snapshotIndex := d.currentTerm, d.votedFor, d.log, d.snapshotIndex;
      if d.snapshot.Bytes? && |d.snapshot.data| > 0 {
        snapshot := d.snapshot;
        snapshotTerm := log[0].term;
      }
    }

    method PersistState()
      modifies this`disk
      ensures disk == Saved(Persist(View()))
    {
      disk := Saved(Durable(currentTerm, votedFor, log, snapshotIndex, Stored(snapshot)));
    }

    /// ### Elections

    method RequestVote(args: VoteArgs) returns (reply: VoteReply)
      requires Valid()
      modifies this`currentTerm, this`votedFor, this`role, this`disk
      ensures Valid() && (View(), reply) == AnswerVote(old(View()), args)
      ensures VoteEffect(old(View()), args, View(), reply)
    {
      VoteHasEffect(View(), args);
      reply := VoteReply(currentTerm, false);
      if args.term < currentTerm {
        return;
      }
      var lastTerm := log[|log| - 1].term;
      var refused := args.lastLogTerm < lastTerm
        || (args.lastLogTerm == lastTerm && args.lastLogIndex < |log| + snapshotIndex - 1);
      if args.term == currentTerm {
        if refused {
          return;
        }
        if votedFor == -1 || votedFor == args.candidateId {
          reply := reply.(voteGranted := true);
          votedFor := args.candidateId;
          PersistState();
        }
      } else {
        currentTerm := args.term;
        PersistState();
        role := Follower;
        if refused {
          return;
        }
        reply := VoteReply(args.term, true);
        votedFor := args.candidateId;
        PersistState();
      }
    }

    method StartElection()
      requires Valid() && role != Leader
      modifies this`currentTerm, this`votedFor, this`role, this`disk
      ensures Valid() && View() == BeginElection(old(View()), me)
      ensures currentTerm == old(currentTerm) + 1 && votedFor == me && role == Candidate
    {
      currentTerm := currentTerm + 1;
      votedFor := me;
      role := Candidate;
      PersistState();
    }

    method GetVote() returns (args: VoteArgs)
      requires Valid()
      ensures args == AskVote(View(), me)
      ensures args.term == currentTerm && args.candidateId == me
      ensures args.lastLogIndex == View().LogLen() - 1 && args.lastLogTerm == View().At(args.lastLogIndex).term
    {
      args := VoteArgs(currentTerm, me, |log| + snapshotIndex - 1, log[|log| - 1].term);
    }

    method CountVote(electionTerm: nat, voteCount: nat, reply: VoteReply) returns (tally: Tally)
      requires Valid()
      modifies this`currentTerm, this`votedFor, this`role, this`nextIndex, this`matchIndex, this`disk
      ensures Valid()
      ensures (View(), tally) == RT.CountVote(old(View()), me, peers, electionTerm, voteCount, reply)
      ensures CountEffect(old(View()), me, peers, electionTerm, voteCount, reply, View(), tally)
    {
      CountHasEffect(View(), me, peers, electionTerm, voteCount, reply);
      if currentTerm != electionTerm {
        return Over;
      }
      if reply.term > currentTerm {
        currentTerm := reply.term;
        votedFor := -1;
        role := Follower;
        PersistState();
        return Over;
      }
      if reply.voteGranted {
        if voteCount + 1 >= peers / 2 + 1 {
          role := Leader;
          nextIndex := seq(peers, i => 0);
          matchIndex := seq(peers, i => 0);
          for i := 0 to peers
            modifies this`nextIndex
            invariant |nextIndex| == peers
            invariant forall j :: 0 <= j < peers ==>
                        nextIndex[j] == if j < i && j != me then |log| + snapshotIndex else 0
          {
            if i != me {
              nextIndex := nextIndex[i := |log| + snapshotIndex];
            }
          }
          ghost var won := TakeOffice(old(View()), me, peers);
          assert nextIndex == won.nextIndex && matchIndex == won.matchIndex;
          return Over;
        }
        return Counting(voteCount + 1);
      }
      return Counting(voteCount);
    }

    /// ### Log replication

    method FindFirstIndex(term: nat, index: nat) returns (r: int)
      requires index < |log|
      ensures SortedTerms(log) ==> r == FindFirst(View(), term, index)
    {
      if snapshotTerm >= term {
        return -1;
      }
      var low, high := 0, index;
      while low < high
        invariant 0 <= low <= high <= index
        invariant SortedTerms(log) ==> forall i :: 0 <= i < low ==> log[i].term < term
        invariant SortedTerms(log) ==> forall i :: high <= i < index ==> log[i].term >= term
      {
        var mid := (low + high) / 2;
        if log[mid].term < term {
          low := mid + 1;
        } else {
          high := mid;
        }
      }
      if SortedTerms(log) {
        FirstIsFirst(log, term, index, low);
      }
      r := low;
      if low == 0 && snapshotIndex == 0 {
        r := 1;
      }
    }

    method FindLastIndex(term: nat) returns (r: int)
      requires |log| >= 1
      ensures -1 <= r < |log|
      ensures SortedTerms(log) ==> r == FindLast(View(), term)
    {
      if snapshotTerm > term {
        return -1;
      }
      var low, index := 0, |log| - 1;
      while true
        invariant 0 <= low <= index < |log|
        invariant low == 0 || log[low].term <= term
        invariant SortedTerms(log) ==> forall i :: index < i < |log| ==> log[i].term > term
        decreases index - low
      {
        var tmp := (low + index) / 2;
        if log[tmp].term <= term {
          low := tmp;
        } else {
          index := tmp;
        }
        if index - low <= 10 {
          var i := index;
          while i >= low
            invariant low - 1 <= i <= index
            invariant SortedTerms(log) ==> forall k :: i < k < |log| ==> log[k].term > term
          {
            if log[i].term <= term {
              if SortedTerms(log) { LastIsLast(log, term, |log| - 1, i); }
              return i;
            }
            i := i - 1;
          }
          if SortedTerms(log) { LastIsLast(log, term, |log| - 1, low); }
          return low;
        }
      }
    }

    // Cutting the log and adding the entries, at prevLogIndex or right after commitIndex.
    method Splice(args: AppendArgs)
      requires Valid() && View().Holds(args.prevLogIndex)
      requires |args.entries| > 0 && !AlreadyCommitted(View(), args)
      modifies this`log, this`disk
      ensures Valid() && View() == old(View()).(log := Merge(old(View()), args))
    {
      if commitIndex > args.prevLogIndex {
        log := log[..commitIndex + 1 - snapshotIndex];
        log := log + args.entries[commitIndex - args.prevLogIndex..];
      } else {
        log := log[..args.prevLogIndex - snapshotIndex + 1];
        log := log + args.entries;
      }
      assert log == Merge(old(View()), args);
      PersistState();
    }

    method AdvanceTo(leaderCommit: nat)
      requires Valid()
      modifies this`commitIndex
      ensures Valid()
      ensures commitIndex == if leaderCommit > old(commitIndex)
                             then Min(leaderCommit, |log| + snapshotIndex - 1)
                             else old(commitIndex)
    {
      if leaderCommit > commitIndex {
        commitIndex := if leaderCommit <= |log| + snapshotIndex - 1 then leaderCommit else |log| + snapshotIndex - 1;
      }
    }

    // What AppendEntries does once the entry at prevLogIndex has matched.
    method StoreEntries(args: AppendArgs)
      requires Valid() && View().Holds(args.prevLogIndex)
      modifies this`log, this`commitIndex, this`disk
      ensures Valid() && View() == Accept(old(View()), args)
      ensures StoreEffect(old(View()), args, View())
    {
      ghost var s0 := View();
      AcceptHasEffect(s0, args);
      if |args.entries| > 0 {
        if commitIndex > args.prevLogIndex && |args.entries| <= commitIndex - args.prevLogIndex {
          return;
        }
        Splice(args);
      }
      assert View() == s0.(log := Merge(s0, args));
      AdvanceTo(args.leaderCommit);
    }

    method FollowSender(args: AppendArgs)
      requires Valid() && args.term >= currentTerm
      modifies this`currentTerm, this`votedFor, this`role, this`disk
      ensures Valid() && View() == Follow(old(View()), args)
    {
      role := Follower;
      if args.term > currentTerm {
        currentTerm := args.term;
        votedFor := -1;
        PersistState();
      }
    }

    method AppendEntries(args: AppendArgs) returns (reply: AppendReply)
      requires Valid() && snapshotIndex <= args.prevLogIndex
      modifies this`currentTerm, this`votedFor, this`role, this`log, this`commitIndex, this`disk
      ensures Valid() && View() == AnswerAppend(old(View()), args).0
      ensures reply == AnswerAppend(old(View()), args).1.(xIndex := reply.xIndex)
      ensures SortedTerms(old(log)) ==> reply == AnswerAppend(old(View()), args).1
      ensures AppendEffect(old(View()), args, View(), reply)
    {
      AppendHasEffect(View(), args);
      if args.term < currentTerm {
        return AppendReply(currentTerm, false, 0, 0, 0);
      }
      FollowSender(args);
      reply := AppendReply(currentTerm, true, 0, 0, 0);
      if args.prevLogIndex >= |log| + snapshotIndex {
        return reply.(success := false, xLength := |log| + snapshotIndex);
      }
      var prev := args.prevLogIndex - snapshotIndex;
      if log[prev].term != args.prevLogTerm {
        var xTerm := log[prev].term;
        var first := FindFirstIndex(xTerm, prev);
        return reply.(success := false, xTerm := xTerm, xIndex := first + snapshotIndex);
      }
      StoreEntries(args);
    }

    method Start(command: Command) returns (index: int, term: int, isLeader: bool)
      requires Valid()
      modifies this`log, this`disk
      ensures Valid() && isLeader == (role == Leader)
      ensures !isLeader ==> index == -1 && term == -1 && View() == old(View())
      ensures isLeader ==> View() == Propose(old(View()), command) && index == View().LogLen() - 1
                           && term == currentTerm && View().At(index) == Entry(term, command)
    {
      if role != Leader {
        return -1, -1, false;
      }
      index := |log| + snapshotIndex;
      term := currentTerm;
      log := log + [Entry(currentTerm, command)];
      PersistState();
      return index, term, true;
    }

    // The AppendEntries branch of one round of sendAppendEntries.
    method MakeAppend(peer: nat) returns (args: AppendArgs)
      requires Valid() && role == Leader && peer < peers
      requires snapshotIndex < nextIndex[peer] && snapshotIndex < |log| + snapshotIndex
      modifies this`nextIndex
      ensures Valid() && View() == Clip(old(View()), peer)
      ensures args == NextRequest(View(), me, peer)
      ensures nextIndex == old(nextIndex)[peer := Min(old(nextIndex)[peer], |log| + snapshotIndex)]
      ensures RequestEffect(View(), me, peer, args)
    {
      if nextIndex[peer] > |log| + snapshotIndex {
        nextIndex := nextIndex[peer := |log| + snapshotIndex];
      }
      var next := nextIndex[peer] - snapshotIndex;
      args := AppendArgs(currentTerm, me, nextIndex[peer] - 1, log[next - 1].term, log[next..], commitIndex);
      RequestHasEffect(View(), me, peer);
    }

    // What a leader does with a rejection of its own term.
    method BackUpFrom(peer: nat, reply: AppendReply)
      requires Valid() && peer < |nextIndex|
      modifies this`nextIndex
      ensures |nextIndex| == |old(nextIndex)| && nextIndex == old(nextIndex)[peer := nextIndex[peer]]
      ensures SortedTerms(log) ==> nextIndex[peer] == BackUp(old(View()), reply)
      ensures SortedTerms(log) ==> BackUpEffect(old(View()), reply, nextIndex[peer])
    {
      if SortedTerms(log) {
        BackUpHasEffect(View(), reply);
      }
      if reply.xTerm == 0 {
        nextIndex := nextIndex[peer := if reply.xLength >= snapshotIndex then reply.xLength else snapshotIndex];
      } else {
        var last := FindLastIndex(reply.xTerm);
        if last == -1 {
          nextIndex := nextIndex[peer := snapshotIndex];
        } else if log[last].term == reply.xTerm {
          nextIndex := nextIndex[peer := last + 1];
        } else {
          nextIndex := nextIndex[peer := if reply.xIndex >= snapshotIndex then reply.xIndex else snapshotIndex];
        }
      }
    }

    // The three uses of a reply: it matches, it demotes, or it makes the leader back up.
    method UseAppend(peer: nat, args: AppendArgs, reply: AppendReply)
      requires Valid() && peer < |nextIndex|
      modifies this`currentTerm, this`votedFor, this`role, this`nextIndex, this`matchIndex, this`disk
      ensures Valid() && View() == UseAppendReply(old(View()), peer, args, reply).(nextIndex := nextIndex)
      ensures |nextIndex| == |old(nextIndex)| && nextIndex == old(nextIndex)[peer := nextIndex[peer]]
      ensures SortedTerms(old(log)) ==> View() == UseAppendReply(old(View()), peer, args, reply)
      ensures UseEffect(old(View()), peer, args, reply, View())
      ensures SortedTerms(old(log)) && !reply.success && reply.term <= args.term ==>
                BackUpEffect(old(View()), reply, nextIndex[peer])
    {
      UseHasEffect(View(), peer, args, reply);
      if reply.success {
        if role != Leader || currentTerm != args.term {
          return;
        }
        var end := args.prevLogIndex + |args.entries| + 1;
        nextIndex := nextIndex[peer := if nextIndex[peer] >= end then nextIndex[peer] else end];
        matchIndex := matchIndex[peer := nextIndex[peer] - 1];
      } else if reply.term > args.term {
        if currentTerm == args.term && role == Leader {
          currentTerm := reply.term;
          votedFor := -1;
          role := Follower;
          PersistState();
        }
      } else {
        BackUpFrom(peer, reply);
      }
    }

    /// ### Commit and delivery

    method ApplyCommitted()
      requires Valid() && (lastApplied < commitIndex ==> snapshotIndex <= lastApplied)
      modifies this`lastApplied, this`applyCh
      ensures Valid() && View() == DeliverAll(old(View())).0
      ensures applyCh == old(applyCh) + DeliverAll(old(View())).1
    {
      ghost var s0, ch0 := View(), applyCh;
      while lastApplied < commitIndex
        invariant Valid() && (lastApplied < commitIndex ==> snapshotIndex <= lastApplied)
        invariant DeliverAll(s0).0 == DeliverAll(View()).0
        invariant ch0 + DeliverAll(s0).1 == applyCh + DeliverAll(View()).1
      {
        ghost var before := View();
        lastApplied := lastApplied + 1;
        applyCh := applyCh + [ApplyCommand(lastApplied, log[lastApplied - snapshotIndex].command)];
        assert Deliver(before).0 == View();
        assert ch0 + DeliverAll(s0).1 == applyCh + DeliverAll(View()).1;
      }
    }

    // The middle of the sorted match indices, with the leader's own log counted in full.
    method CommitMajority() returns (advanced: bool)
      requires Valid() && role == Leader && me < |matchIndex|
      requires Median(Matched(View(), me)) > commitIndex ==> View().Holds(Median(Matched(View(), me)))
      modifies this`commitIndex
      ensures Valid() && View() == AdvanceCommit(old(View()), me)
      ensures advanced <==> View() != old(View())
      ensures CommitEffect(old(View()), me, View())
    {
      CommitHasEffect(View(), me);
      var tmp := matchIndex[me := |log| + snapshotIndex - 1];
      tmp := Sort(tmp);
      var middle := tmp[|tmp| / 2];
      if middle > commitIndex {
        if log[middle - snapshotIndex].term != currentTerm {
          return false;
        }
        commitIndex := middle;
        return true;
      }
      return false;
    }

    // A snapshot that is held and not yet delivered.
    method ApplyHeld()
      requires Valid()
      modifies this`lastApplied, this`applyCh
      ensures Valid() && View() == DeliverSnapshot(old(View())).0
      ensures applyCh == old(applyCh) + DeliverSnapshot(old(View())).1
    {
      if snapshot != NoSnapshot && lastApplied < snapshotIndex {
        applyCh := applyCh + [ApplySnapshot(snapshotIndex, snapshotTerm, snapshot)];
        lastApplied := snapshotIndex;
      }
    }

    method ApplyCommands()
      requires Valid() && CanWake(View(), me) && snapshotIndex <= lastApplied
      modifies this`commitIndex, this`lastApplied, this`applyCh
      ensures Valid() && View() == DeliverCommands(old(View()), me).0
      ensures applyCh == old(applyCh) + DeliverCommands(old(View()), me).1
    {
      var deliver := true;
      if role == Leader {
        deliver := CommitMajority();
      }
      if deliver {
        ApplyCommitted();
      }
    }

    // One wake-up of applyLogEntries on a peer that nothing else touches meanwhile.
    method ApplyLogEntries()
      requires Valid() && CanWake(View(), me)
      modifies this`commitIndex, this`lastApplied, this`applyCh
      ensures Valid()
      ensures View() == Wake(old(View()), me).0 && applyCh == old(applyCh) + Wake(old(View()), me).1
      ensures old(applyCh) <= applyCh && WakeEffect(old(View()), View(), applyCh[|old(applyCh)|..])
      ensures role == Leader ==> CommitEffect(old(View()), me, old(View()).(commitIndex := commitIndex))
    {
      ghost var s0, ch0 := View(), applyCh;
      ApplyHeld();
      ApplyCommands();
      assert applyCh == ch0 + Wake(s0, me).1;
      assert applyCh[|ch0|..] == Wake(s0, me).1;
      WakeHasEffect(s0, me);
    }

    // The service has a snapshot of everything up to index.
    method TakeSnapshot(index: int, data: Snapshot)
      requires Valid()
      modifies this`log, this`snapshotTerm, this`snapshotIndex, this`snapshot
      modifies this`lastApplied, this`commitIndex, this`disk
      ensures Valid() && View() == Compact(old(View()), index, data)
      ensures SnapshotEffect(old(View()), index, data, View())
    {
      SnapshotHasEffect(View(), index, data);
      if snapshotIndex >= index || index > |log| + snapshotIndex - 1 {
        return;
      }
      Discard(index, data);
      lastApplied := if lastApplied >= index then lastApplied else index;
      commitIndex := if commitIndex >= index then commitIndex else index;
    }

    // The log is cut below the snapshot, and both are saved.
    method Discard(index: nat, data: Snapshot)
      requires Valid() && Effective(View(), index)
      modifies this`log, this`snapshotTerm, this`snapshotIndex, this`snapshot, this`disk
      ensures log == old(log)[index - old(snapshotIndex)..] && snapshotTerm == log[0].term
      ensures snapshotIndex == index && snapshot == data && disk == Saved(Persist(View()))
    {
      log := log[index - snapshotIndex..];
      snapshotTerm := log[0].term;
      snapshotIndex := index;
      snapshot := data;
      PersistState();
    }
  }
}
