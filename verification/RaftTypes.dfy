/** The values one Raft peer keeps and exchanges, and what each of its handlers does to them.

    Every function here is the effect of one critical section of src/raft1/raft.go: it maps the
    peer's fields (and a message) to the new fields (and a reply).  RaftServer shows that the
    step-by-step methods compute these functions; RaftCluster runs them on many peers at once.
 */
module RaftTypes {

  datatype Command = NoCommand | Cmd(payload: string)

  datatype Entry = Entry(term: nat, command: Command)

  // Position 0 of a log that was never compacted.
  const DUMMY := Entry(0, NoCommand)

  datatype Role = Follower | Candidate | Leader

  // The service's snapshot bytes; a nil slice is NoSnapshot.
  datatype Snapshot = NoSnapshot | Bytes(data: string)

  datatype ApplyMsg =
    | ApplyCommand(index: int, command: Command)
    | ApplySnapshot(index: int, term: int, snapshot: Snapshot)

  datatype VoteArgs = VoteArgs(term: nat, candidateId: nat, lastLogIndex: int, lastLogTerm: int)

  datatype VoteReply = VoteReply(term: nat, voteGranted: bool)

  datatype AppendArgs = AppendArgs(term: nat, leaderId: nat, prevLogIndex: nat, prevLogTerm: nat,
                                   entries: seq<Entry>, leaderCommit: nat)
  {
    // The index of the last entry the receiver holds once it has accepted this request.
    function End(): nat { prevLogIndex + |entries| }
  }

  datatype AppendReply = AppendReply(term: nat, success: bool, xTerm: nat, xIndex: int, xLength: int)

  // What persist() saves.
  datatype Durable = Durable(currentTerm: nat, votedFor: int, log: seq<Entry>, snapshotIndex: nat,
                             snapshot: Snapshot)

  // The fields of struct Raft that outlive a critical section.
  datatype Server = Server(currentTerm: nat, votedFor: int, log: seq<Entry>,
                           commitIndex: nat, lastApplied: nat,
                           nextIndex: seq<int>, matchIndex: seq<int>, role: Role,
                           snapshotIndex: nat, snapshotTerm: nat, snapshot: Snapshot)
  {
    // Loglen() in the source.
    function LogLen(): nat { |log| + snapshotIndex }

    predicate Holds(index: int) { snapshotIndex <= index < LogLen() }

    function At(index: int): Entry
      requires Holds(index)
    {
      log[index - snapshotIndex]
    }

    // The log keeps at least its dummy entry, and no index points past its end.
    predicate Valid() {
      && |log| >= 1
      && commitIndex < LogLen()
      && lastApplied < LogLen()
    }

    function LastTerm(): nat
      requires |log| >= 1
    {
      log[|log| - 1].term
    }
  }

  predicate SortedTerms(log: seq<Entry>) {
    forall i, j :: 0 <= i <= j < |log| ==> log[i].term <= log[j].term
  }

  function Max(a: int, b: int): int { if a >= b then a else b }

  function Min(a: int, b: int): int { if a <= b then a else b }

  /// ## Votes

  // The candidate's log is at least as up to date as ours.
  predicate UpToDate(s: Server, args: VoteArgs)
    requires |s.log| >= 1
  {
    !(args.lastLogTerm < s.LastTerm()
      || (args.lastLogTerm == s.LastTerm() && args.lastLogIndex < s.LogLen() - 1))
  }

  // A refused vote for a newer term adopts the term but keeps the old votedFor, and answers with
  // the term the peer had before.
  function AnswerVote(s: Server, args: VoteArgs): (Server, VoteReply)
    requires |s.log| >= 1
  {
    if args.term < s.currentTerm then
      (s, VoteReply(s.currentTerm, false))
    else if args.term == s.currentTerm then
      if UpToDate(s, args) && (s.votedFor == -1 || s.votedFor == args.candidateId) then
        (s.(votedFor := args.candidateId), VoteReply(s.currentTerm, true))
      else
        (s, VoteReply(s.currentTerm, false))
    else
      var newer := s.(currentTerm := args.term, role := Follower);
      if UpToDate(s, args) then
        (newer.(votedFor := args.candidateId), VoteReply(args.term, true))
      else
        (newer, VoteReply(s.currentTerm, false))
  }

  function BeginElection(s: Server, me: nat): Server {
    s.(currentTerm := s.currentTerm + 1, votedFor := me, role := Candidate)
  }

  function AskVote(s: Server, me: nat): VoteArgs
    requires |s.log| >= 1
  {
    VoteArgs(s.currentTerm, me, s.LogLen() - 1, s.LastTerm())
  }

  function Demote(s: Server, term: nat): Server {
    s.(currentTerm := term, votedFor := -1, role := Follower)
  }

  function TakeOffice(s: Server, me: nat, peers: nat): Server {
    s.(role := Leader,
       nextIndex := seq(peers, i => if i == me then 0 else s.LogLen()),
       matchIndex := seq(peers, i => 0))
  }

  datatype Tally = Counting(voteCount: nat) | Over

  // One round of the loop that collects the replies of the election for electionTerm.  Taking
  // office depends on the term alone, not on still being a candidate.
  function CountVote(s: Server, me: nat, peers: nat, electionTerm: nat, voteCount: nat, reply: VoteReply)
    : (Server, Tally)
  {
    if s.currentTerm != electionTerm then (s, Over)
    else if reply.term > s.currentTerm then (Demote(s, reply.term), Over)
    else if reply.voteGranted then
      if voteCount + 1 >= peers / 2 + 1 then (TakeOffice(s, me, peers), Over)
      else (s, Counting(voteCount + 1))
    else (s, Counting(voteCount))
  }

  /// ## Log replication

  // The least position up to hi from which the terms stay at least `term`.
  function FirstAtLeast(log: seq<Entry>, term: nat, hi: nat): (r: nat)
    requires hi < |log|
    ensures r <= hi
  {
    if hi == 0 || log[hi - 1].term < term then hi else FirstAtLeast(log, term, hi - 1)
  }

  // The last position up to hi whose term is at most `term`, or 0.
  function LastAtMost(log: seq<Entry>, term: nat, hi: nat): (r: nat)
    requires hi < |log|
    ensures r <= hi
  {
    if hi == 0 || log[hi].term <= term then hi else LastAtMost(log, term, hi - 1)
  }

  // findFirstIndex: where the run of `term` that ends at position `hi` starts.
  function FindFirst(s: Server, term: nat, hi: nat): int
    requires hi < |s.log|
  {
    if s.snapshotTerm >= term then -1
    else
      var low := FirstAtLeast(s.log, term, hi);
      if low == 0 && s.snapshotIndex == 0 then 1 else low
  }

  // findLastIndex
  function FindLast(s: Server, term: nat): (r: int)
    requires |s.log| >= 1
    ensures -1 <= r < |s.log|
  {
    if s.snapshotTerm > term then -1 else LastAtMost(s.log, term, |s.log| - 1)
  }

  // An accepted request whose entries all lie at or below commitIndex changes nothing at all.
  predicate AlreadyCommitted(s: Server, args: AppendArgs) {
    |args.entries| > 0 && args.End() <= s.commitIndex
  }

  // Entries are cut at prevLogIndex, or spliced in right after commitIndex, without looking for
  // a conflict.
  function Merge(s: Server, args: AppendArgs): seq<Entry>
    requires s.Valid() && s.Holds(args.prevLogIndex) && !AlreadyCommitted(s, args)
  {
    if |args.entries| == 0 then
      s.log
    else if s.commitIndex > args.prevLogIndex then
      s.log[..s.commitIndex + 1 - s.snapshotIndex] + args.entries[s.commitIndex - args.prevLogIndex..]
    else
      s.log[..args.prevLogIndex + 1 - s.snapshotIndex] + args.entries
  }

  function Accept(s: Server, args: AppendArgs): Server
    requires s.Valid() && s.Holds(args.prevLogIndex)
  {
    if AlreadyCommitted(s, args) then s
    else
      var merged := s.(log := Merge(s, args));
      if args.leaderCommit > s.commitIndex then
        merged.(commitIndex := Min(args.leaderCommit, merged.LogLen() - 1))
      else merged
  }

  // Every request that is not from an older term makes the receiver a follower of that term.
  function Follow(s: Server, args: AppendArgs): Server {
    if args.term > s.currentTerm then Demote(s, args.term) else s.(role := Follower)
  }

  function AnswerAppend(s: Server, args: AppendArgs): (Server, AppendReply)
    requires s.Valid() && s.snapshotIndex <= args.prevLogIndex
  {
    if args.term < s.currentTerm then
      (s, AppendReply(s.currentTerm, false, 0, 0, 0))
    else
      var f := Follow(s, args);
      if args.prevLogIndex >= f.LogLen() then
        (f, AppendReply(f.currentTerm, false, 0, 0, f.LogLen()))
      else if f.At(args.prevLogIndex).term != args.prevLogTerm then
        var xTerm := f.At(args.prevLogIndex).term;
        var xIndex := FindFirst(f, xTerm, args.prevLogIndex - f.snapshotIndex) + f.snapshotIndex;
        (f, AppendReply(f.currentTerm, false, xTerm, xIndex, 0))
      else
        (Accept(f, args), AppendReply(f.currentTerm, true, 0, 0, 0))
  }

  // The start of a sender round: an impossible nextIndex is pulled back to the end of the log.
  function Clip(s: Server, peer: nat): Server
    requires peer < |s.nextIndex|
  {
    if s.nextIndex[peer] > s.LogLen() then s.(nextIndex := s.nextIndex[peer := s.LogLen()]) else s
  }

  // The request carries the whole log from nextIndex on.
  function NextRequest(s: Server, me: nat, peer: nat): AppendArgs
    requires peer < |s.nextIndex| && s.snapshotIndex < s.nextIndex[peer] <= s.LogLen()
  {
    var prev := s.nextIndex[peer] - 1;
    AppendArgs(s.currentTerm, me, prev, s.At(prev).term, s.log[prev + 1 - s.snapshotIndex..], s.commitIndex)
  }

  // nextIndex after a rejection.  The source compares and stores the position findLastIndex
  // returns without adding SnapshotIndex.
  function BackUp(s: Server, reply: AppendReply): int
    requires |s.log| >= 1
  {
    if reply.xTerm == 0 then Max(reply.xLength, s.snapshotIndex)
    else
      var last := FindLast(s, reply.xTerm);
      if last == -1 then s.snapshotIndex
      else if s.log[last].term == reply.xTerm then last + 1
      else Max(reply.xIndex, s.snapshotIndex)
  }

  // The last branch looks at neither the term nor the role.
  function UseAppendReply(s: Server, peer: nat, args: AppendArgs, reply: AppendReply): Server
    requires |s.log| >= 1 && peer < |s.nextIndex| == |s.matchIndex|
  {
    if reply.success then
      if s.role != Leader || s.currentTerm != args.term then s
      else
        var next := Max(s.nextIndex[peer], args.End() + 1);
        s.(nextIndex := s.nextIndex[peer := next], matchIndex := s.matchIndex[peer := next - 1])
    else if reply.term > args.term then
      if s.currentTerm == args.term && s.role == Leader then Demote(s, reply.term) else s
    else
      s.(nextIndex := s.nextIndex[peer := BackUp(s, reply)])
  }

  function Propose(s: Server, command: Command): Server {
    s.(log := s.log + [Entry(s.currentTerm, command)])
  }

  /// ## Commit and delivery

  function Insert(x: int, sorted: seq<int>): seq<int> {
    if sorted == [] || x <= sorted[0] then [x] + sorted else [sorted[0]] + Insert(x, sorted[1..])
  }

  // What sort.Ints leaves in a slice.
  function Sort(xs: seq<int>): (r: seq<int>)
    ensures |r| == |xs|
  {
    if xs == [] then [] else InsertLength(xs[0], Sort(xs[1..])); Insert(xs[0], Sort(xs[1..]))
  }

  lemma InsertLength(x: int, sorted: seq<int>)
    ensures |Insert(x, sorted)| == |sorted| + 1
  {
  }

  // The leader counts its own log as matched up to the end.
  function Matched(s: Server, me: nat): seq<int>
    requires me < |s.matchIndex|
  {
    s.matchIndex[me := s.LogLen() - 1]
  }

  function Median(xs: seq<int>): int
    requires |xs| >= 1
  {
    Sort(xs)[|xs| / 2]
  }

  // The element in the middle of the sorted match indices is committed when it is new and of the
  // leader's own term.
  function AdvanceCommit(s: Server, me: nat): Server
    requires me < |s.matchIndex|
    requires Median(Matched(s, me)) > s.commitIndex ==> s.Holds(Median(Matched(s, me)))
  {
    var middle := Median(Matched(s, me));
    if middle > s.commitIndex && s.At(middle).term == s.currentTerm then s.(commitIndex := middle) else s
  }

  predicate CanDeliver(s: Server) {
    s.snapshotIndex <= s.lastApplied < s.commitIndex < s.LogLen()
  }

  function Deliver(s: Server): (Server, ApplyMsg)
    requires CanDeliver(s)
  {
    var index := s.lastApplied + 1;
    (s.(lastApplied := index), ApplyCommand(index, s.At(index).command))
  }

  /// ## Durability and compaction

  // A nil snapshot and an empty one read back the same.
  function Stored(snapshot: Snapshot): Snapshot {
    if snapshot.Bytes? && |snapshot.data| > 0 then snapshot else NoSnapshot
  }

  function Persist(s: Server): Durable {
    Durable(s.currentTerm, s.votedFor, s.log, s.snapshotIndex, Stored(s.snapshot))
  }

  // A first boot finds nothing saved.
  function Boot(): Server {
    Server(0, -1, [DUMMY], 0, 0, [], [], Follower, 0, 0, NoSnapshot)
  }

  function Restart(d: Durable): Server
    requires |d.log| >= 1
  {
    Server(d.currentTerm, d.votedFor, d.log, 0, 0, [], [], Follower, d.snapshotIndex,
           if Stored(d.snapshot) != NoSnapshot then d.log[0].term else 0, Stored(d.snapshot))
  }

  function Compact(s: Server, index: int, snapshot: Snapshot): Server
    requires |s.log| >= 1
  {
    if s.snapshotIndex >= index || index > s.LogLen() - 1 then s
    else
      var log := s.log[index - s.snapshotIndex..];
      s.(log := log, snapshotTerm := log[0].term, snapshotIndex := index, snapshot := snapshot,
         lastApplied := Max(s.lastApplied, index), commitIndex := Max(s.commitIndex, index))
  }
}
