/** The key/value server with any number of clerks, next to the repository's own specification of one
    key (src/models1/kv.go).

    Every operation that was ever invoked is a record with its place in time.  The server's steps
    are the attempts of these operations, in any interleaving; each attempt may lose its request or
    its reply.  For every key a list of points is kept: the operation takes effect at the attempt
    that applied it, or else at its last executed attempt, the one that was answered.
 */
module KvLinear {
  import opened KvServer

  /// ## The specification of one key

  datatype KvInput = GetInput(key: string) | PutInput(key: string, value: string, version: nat)

  datatype KvOutput = KvOutput(value: string, version: nat, err: Err)

  datatype KvState = KvState(value: string, version: nat)

  const KV_INIT := KvState("", 0)

  // KvModel.Step: whether the model accepts the output, and its next state.  A Put is never
  // accepted with ErrNoKey.
  function ModelStep(st: KvState, input: KvInput, output: KvOutput): (bool, KvState) {
    match input
    case GetInput(_) => (output.value == st.value, st)
    case PutInput(_, value, version) =>
      if st.version == version then
        (output.err == OK || output.err == ErrMaybe, KvState(value, st.version + 1))
      else
        (output.err == ErrVersion || output.err == ErrMaybe, st)
  }

  /// ## The system

  datatype Status = Running(retry: bool) | Done(output: KvOutput, returned: nat)

  datatype Op = Op(input: KvInput, invoked: nat, status: Status, applied: nat)
  {
    // An operation still running may be completed with ErrMaybe.
    function Output(): KvOutput {
      if status.Done? then status.output else KvOutput("", 0, ErrMaybe)
    }
  }

  datatype Point = Point(op: nat, time: nat)

  datatype System = System(store: Store, ops: seq<Op>, points: map<string, seq<Point>>, now: nat)

  datatype Action = Invoke(input: KvInput) | Attempt(op: nat, fate: Fate)

  function PointsOf(w: System, key: string): seq<Point> {
    if key in w.points then w.points[key] else []
  }

  predicate Enabled(w: System, a: Action) {
    a.Attempt? ==> a.op < |w.ops| && w.ops[a.op].status.Running?
  }

  function ArgsOf(input: KvInput): PutArgs
    requires input.PutInput?
  {
    PutArgs(input.key, input.value, input.version)
  }

  function AddPoint(w: System, key: string, op: nat): map<string, seq<Point>> {
    w.points[key := PointsOf(w, key) + [Point(op, w.now)]]
  }

  // A Get has no effect; only the attempt whose reply arrives is recorded.
  function GetStep(w: System, i: nat, fate: Fate): System
    requires i < |w.ops| && w.ops[i].status.Running? && w.ops[i].input.GetInput?
  {
    var op := w.ops[i];
    if fate != Deliver then w.(ops := w.ops[i := op.(status := Running(true))], now := w.now + 1)
    else
      var r := Read(w.store, op.input.key);
      System(w.store, w.ops[i := op.(status := Done(KvOutput(r.value, r.version, r.err), w.now))],
             AddPoint(w, op.input.key, i), w.now + 1)
  }

  function PutStep(w: System, i: nat, fate: Fate): System
    requires i < |w.ops| && w.ops[i].status.Running? && w.ops[i].input.PutInput?
  {
    var op := w.ops[i];
    var args := ArgsOf(op.input);
    var (store, outcome) := PutAttempt(w.store, args, op.status.retry, fate);
    var applies := fate != DropRequest && Write(w.store, args).1 == OK;
    var status := if outcome.Return? then Done(KvOutput("", 0, outcome.err), w.now) else Running(true);
    // an operation that was applied earlier already has its point
    var points := if applies || (outcome.Return? && op.applied == 0) then AddPoint(w, op.input.key, i) else w.points;
    System(store, w.ops[i := op.(status := status, applied := if applies then op.applied + 1 else op.applied)],
           points, w.now + 1)
  }

  function Do(w: System, a: Action): System
    requires Enabled(w, a)
  {
    match a
    case Invoke(input) => w.(ops := w.ops + [Op(input, w.now, Running(false), 0)], now := w.now + 1)
    case Attempt(i, fate) => if w.ops[i].input.GetInput? then GetStep(w, i, fate) else PutStep(w, i, fate)
  }

  predicate Legal(run: seq<Action>)
    decreases |run|, 0
  {
    run != [] ==> Legal(run[..|run| - 1]) && Enabled(Exec(run[..|run| - 1]), run[|run| - 1])
  }

  function Exec(run: seq<Action>): System
    requires Legal(run)
    decreases |run|, 1
  {
    if run == [] then System(map[], [], map[], 0)
    else Do(Exec(run[..|run| - 1]), run[|run| - 1])
  }

  /// ## Replaying the points

  // Feeds a list of points to the model of one key.
  function Replay(ops: seq<Op>, points: seq<Point>): (bool, KvState)
    requires forall p :: p in points ==> p.op < |ops|
  {
    if points == [] then (true, KV_INIT)
    else
      var last := points[|points| - 1];
      var (ok, st) := Replay(ops, points[..|points| - 1]);
      var (accepted, st') := ModelStep(st, ops[last.op].input, ops[last.op].Output());
      (ok && accepted, st')
  }

  function StateOf(store: Store, key: string): KvState {
    if key in store then KvState(store[key].value, store[key].version) else KV_INIT
  }

  // How many Puts were applied to a key.
  function Puts(ops: seq<Op>, key: string): nat {
    if ops == [] then 0
    else Puts(ops[..|ops| - 1], key) + (if ops[|ops| - 1].input.key == key then ops[|ops| - 1].applied else 0)
  }

  predicate AnsweredNoKey(op: Op) {
    op.input.PutInput? && op.status.Done? && op.status.output.err == ErrNoKey
  }

  /// ## Invariant

  ghost predicate OpOK(store: Store, op: Op, now: nat) {
    && op.applied <= 1
    && op.invoked < now
    && (op.input.GetInput? ==> op.applied == 0)
    && (op.status == Running(false) ==> op.applied == 0)
    && (op.applied == 1 ==>
          op.input.PutInput? && op.input.key in store && store[op.input.key].version > op.input.version)
    && (op.status.Done? ==> op.invoked < op.status.returned < now)
    && (op.status.Done? && op.input.PutInput? ==>
          && (op.status.output.err == OK ==> op.applied == 1)
          && (op.status.output.err == ErrVersion || op.status.output.err == ErrNoKey ==> op.applied == 0)
          && (op.applied == 1 ==>
                op.status.output == KvOutput("", 0, OK) || op.status.output == KvOutput("", 0, ErrMaybe)))
  }

  ghost predicate OpsOK(w: System) {
    forall i {:trigger w.ops[i]} :: 0 <= i < |w.ops| ==> OpOK(w.store, w.ops[i], w.now)
  }

  ghost predicate HasPoint(points: seq<Point>, i: nat) {
    exists x :: 0 <= x < |points| && points[x].op == i
  }

  // The points of a key are in order of time, each inside its operation's call, one for each
  // operation that was applied or answered.
  ghost predicate PointsOK(w: System, key: string) {
    var points := PointsOf(w, key);
    && (forall p :: p in points ==> p.op < |w.ops|)
    && (forall x {:trigger points[x]} :: 0 <= x < |points| ==>
          && points[x].time < w.now
          && w.ops[points[x].op].input.key == key
          && w.ops[points[x].op].invoked < points[x].time
          && (w.ops[points[x].op].status.Done? ==> points[x].time <= w.ops[points[x].op].status.returned)
          && (w.ops[points[x].op].status.Running? ==> w.ops[points[x].op].applied == 1))
    && (forall x, y :: 0 <= x < y < |points| ==> points[x].time < points[y].time && points[x].op != points[y].op)
    && (forall i {:trigger HasPoint(points, i)} :: 0 <= i < |w.ops| && w.ops[i].input.key == key ==>
          (HasPoint(points, i) <==> w.ops[i].status.Done? || w.ops[i].applied == 1))
  }

  ghost predicate ReplayOK(w: System, key: string)
    requires PointsOK(w, key)
  {
    var points := PointsOf(w, key);
    && Replay(w.ops, points).1 == StateOf(w.store, key)
    && (Replay(w.ops, points).0 <==> forall p :: p in points ==> !AnsweredNoKey(w.ops[p.op]))
  }

  ghost predicate KeyOK(w: System, key: string) {
    PointsOK(w, key) && ReplayOK(w, key) && Puts(w.ops, key) == VersionOf(w.store, key)
  }

  ghost predicate Inv(w: System) {
    && OpsOK(w)
    && (forall key {:trigger KeyOK(w, key)} :: KeyOK(w, key))
  }

  lemma {:induction false} ReplaySame(ops: seq<Op>, ops': seq<Op>, points: seq<Point>)
    requires forall p :: p in points ==> p.op < |ops| && p.op < |ops'|
    requires forall p :: p in points ==>
               ops'[p.op].input == ops[p.op].input && ops'[p.op].Output() == ops[p.op].Output()
    ensures Replay(ops', points) == Replay(ops, points)
    decreases |points|
  {
    if points != [] {
      ReplaySame(ops, ops', points[..|points| - 1]);
      assert points[|points| - 1] in points;
    }
  }

  lemma {:induction false} PutsUpdate(ops: seq<Op>, i: nat, op: Op, key: string)
    requires i < |ops| && op.input == ops[i].input
    ensures Puts(ops[i := op], key) == Puts(ops, key) + (if op.input.key == key then op.applied - ops[i].applied else 0)
    decreases |ops|
  {
    var last := |ops| - 1;
    if i < last {
      PutsUpdate(ops[..last], i, op, key);
      assert ops[i := op][..last] == ops[..last][i := op];
    } else {
      assert ops[i := op][..last] == ops[..last];
    }
  }

  /// ## Steps

  // Replacing operation i by one that still lacks a point, or has the one it had.
  lemma PointsStay(w: System, w': System, i: nat, key: string)
    requires i < |w.ops| && PointsOK(w, key) && PointsOf(w', key) == PointsOf(w, key) && w'.now == w.now + 1
    requires |w'.ops| == |w.ops| && w'.ops == w.ops[i := w'.ops[i]]
    requires var op, op' := w.ops[i], w'.ops[i];
             && op'.input == op.input && op'.invoked == op.invoked && op'.applied == op.applied && op.status.Running?
             && (op.input.key == key && op'.status.Done? ==> op.applied == 1 && op'.status.returned == w.now)
    ensures PointsOK(w', key)
  {
    var points := PointsOf(w, key);
    forall j | 0 <= j < |w'.ops| && w'.ops[j].input.key == key
      ensures HasPoint(points, j) <==> w'.ops[j].status.Done? || w'.ops[j].applied == 1
    {
      assert HasPoint(points, j) <==> w.ops[j].status.Done? || w.ops[j].applied == 1;
    }
  }

  // Giving operation i its point.
  lemma PointAdded(w: System, w': System, i: nat, key: string)
    requires i < |w.ops| && PointsOK(w, key) && PointsOf(w', key) == PointsOf(w, key) + [Point(i, w.now)]
    requires w'.now == w.now + 1 && |w'.ops| == |w.ops| && w'.ops == w.ops[i := w'.ops[i]]
    requires var op, op' := w.ops[i], w'.ops[i];
             && op'.input == op.input && op'.invoked == op.invoked < w.now && op.input.key == key
             && op.status.Running? && op.applied == 0
             && (op'.status.Done? || op'.applied == 1) && (op'.status.Done? ==> op'.status.returned == w.now)
    ensures PointsOK(w', key)
    ensures !HasPoint(PointsOf(w, key), i)
  {
    var points, points' := PointsOf(w, key), PointsOf(w', key);
    assert !HasPoint(points, i);
    forall j | 0 <= j < |w'.ops| && w'.ops[j].input.key == key
      ensures HasPoint(points', j) <==> w'.ops[j].status.Done? || w'.ops[j].applied == 1
    {
      assert HasPoint(points, j) <==> w.ops[j].status.Done? || w.ops[j].applied == 1;
      HasPointAppend(points, Point(i, w.now), j);
    }
  }

  lemma HasPointAppend(points: seq<Point>, p: Point, j: nat)
    ensures HasPoint(points + [p], j) <==> HasPoint(points, j) || p.op == j
  {
    if HasPoint(points, j) {
      var x :| 0 <= x < |points| && points[x].op == j;
      assert (points + [p])[x].op == j;
    }
    assert (points + [p])[|points|] == p;
  }

  lemma ReplayLast(ops: seq<Op>, points: seq<Point>, p: Point)
    requires (forall q :: q in points ==> q.op < |ops|) && p.op < |ops|
    requires forall q :: q in points + [p] ==> q.op < |ops|
    ensures var (ok, st) := Replay(ops, points);
            var (accepted, st') := ModelStep(st, ops[p.op].input, ops[p.op].Output());
            Replay(ops, points + [p]) == (ok && accepted, st')
  {
    assert (points + [p])[..|points|] == points;
  }

  lemma NoneAnsweredNoKey(ops: seq<Op>, points: seq<Point>, p: Point)
    requires forall q :: q in points + [p] ==> q.op < |ops|
    ensures (forall q :: q in points + [p] ==> !AnsweredNoKey(ops[q.op]))
       <==> (forall q :: q in points ==> !AnsweredNoKey(ops[q.op])) && !AnsweredNoKey(ops[p.op])
  {
    assert p in points + [p];
    assert forall q :: q in points ==> q in points + [p];
  }

  // Replaying one more point.
  lemma ReplayAdded(w: System, w': System, i: nat, key: string)
    requires PointsOK(w, key) && PointsOK(w', key) && ReplayOK(w, key) && i < |w.ops|
    requires PointsOf(w', key) == PointsOf(w, key) + [Point(i, w.now)] && !HasPoint(PointsOf(w, key), i)
    requires |w'.ops| == |w.ops| && w'.ops == w.ops[i := w'.ops[i]] && w'.ops[i].input == w.ops[i].input
    requires var (accepted, st) := ModelStep(StateOf(w.store, key), w'.ops[i].input, w'.ops[i].Output());
             st == StateOf(w'.store, key) && (accepted <==> !AnsweredNoKey(w'.ops[i]))
    ensures ReplayOK(w', key)
  {
    var points := PointsOf(w, key);
    forall p | p in points
      ensures p.op != i && w'.ops[p.op] == w.ops[p.op]
    {
      var x :| 0 <= x < |points| && points[x] == p;
      assert p.op == i ==> HasPoint(points, i);
    }
    ReplaySame(w.ops, w'.ops, points);
    ReplayLast(w'.ops, points, Point(i, w.now));
    NoneAnsweredNoKey(w'.ops, points, Point(i, w.now));
  }

  lemma ReplayStays(w: System, w': System, key: string)
    requires PointsOK(w, key) && PointsOK(w', key) && ReplayOK(w, key)
    requires PointsOf(w', key) == PointsOf(w, key) && StateOf(w'.store, key) == StateOf(w.store, key)
    requires |w.ops| <= |w'.ops|
    requires forall i :: 0 <= i < |w.ops| ==>
               w'.ops[i].input == w.ops[i].input && w'.ops[i].Output() == w.ops[i].Output()
    requires forall p :: p in PointsOf(w, key) ==> AnsweredNoKey(w'.ops[p.op]) == AnsweredNoKey(w.ops[p.op])
    ensures ReplayOK(w', key)
  {
    ReplaySame(w.ops, w'.ops, PointsOf(w, key));
  }

  lemma InvokeOpsOK(w: System, input: KvInput)
    requires OpsOK(w)
    ensures OpsOK(Do(w, Invoke(input)))
  {
    var w' := Do(w, Invoke(input));
    forall i | 0 <= i < |w'.ops|
      ensures OpOK(w'.store, w'.ops[i], w'.now)
    {
      assert i < |w.ops| ==> OpOK(w.store, w.ops[i], w.now);
    }
  }

  lemma InvokePoints(w: System, input: KvInput, key: string)
    requires PointsOK(w, key)
    ensures PointsOK(Do(w, Invoke(input)), key)
  {
    var w', points := Do(w, Invoke(input)), PointsOf(w, key);
    assert forall x :: 0 <= x < |points| ==> points[x] in points && points[x].op < |w.ops|;
    forall j | 0 <= j < |w'.ops| && w'.ops[j].input.key == key
      ensures HasPoint(points, j) <==> w'.ops[j].status.Done? || w'.ops[j].applied == 1
    {
      assert j < |w.ops| ==> (HasPoint(points, j) <==> w.ops[j].status.Done? || w.ops[j].applied == 1);
    }
  }

  lemma InvokeStep(w: System, input: KvInput, key: string)
    requires KeyOK(w, key)
    ensures KeyOK(Do(w, Invoke(input)), key)
  {
    var w' := Do(w, Invoke(input));
    InvokePoints(w, input, key);
    ReplayStays(w, w', key);
    assert w'.ops[..|w.ops|] == w.ops;
  }

  lemma GetOpsOK(w: System, i: nat, fate: Fate)
    requires OpsOK(w) && i < |w.ops| && w.ops[i].status.Running? && w.ops[i].input.GetInput?
    ensures OpsOK(GetStep(w, i, fate)) && w.ops[i].applied == 0
  {
    var w' := GetStep(w, i, fate);
    assert OpOK(w.store, w.ops[i], w.now);
    forall j | 0 <= j < |w'.ops|
      ensures OpOK(w'.store, w'.ops[j], w'.now)
    {
      assert OpOK(w.store, w.ops[j], w.now);
    }
  }

  lemma GetPoints(w: System, i: nat, fate: Fate, key: string)
    requires OpsOK(w) && PointsOK(w, key)
    requires i < |w.ops| && w.ops[i].status.Running? && w.ops[i].input.GetInput?
    ensures PointsOK(GetStep(w, i, fate), key) && !HasPoint(PointsOf(w, key), i)
  {
    var w' := GetStep(w, i, fate);
    assert OpOK(w.store, w.ops[i], w.now);
    OthersAnswered(w, w', i, key);
    if fate == Deliver && key == w.ops[i].input.key {
      PointAdded(w, w', i, key);
    } else {
      PointsStay(w, w', i, key);
    }
  }

  lemma GetReplay(w: System, i: nat, fate: Fate, key: string)
    requires PointsOK(w, key) && ReplayOK(w, key) && !HasPoint(PointsOf(w, key), i)
    requires i < |w.ops| && w.ops[i].status.Running? && w.ops[i].input.GetInput?
    requires PointsOK(GetStep(w, i, fate), key)
    ensures ReplayOK(GetStep(w, i, fate), key)
  {
    var w' := GetStep(w, i, fate);
    if fate == Deliver && key == w.ops[i].input.key {
      ReplayAdded(w, w', i, key);
    } else {
      ReplaySameElsewhere(w, w', i, key);
    }
  }

  lemma GetCounts(w: System, i: nat, fate: Fate, key: string)
    requires i < |w.ops| && w.ops[i].status.Running? && w.ops[i].input.GetInput?
    ensures Puts(GetStep(w, i, fate).ops, key) == Puts(w.ops, key) && GetStep(w, i, fate).store == w.store
  {
    PutsUpdate(w.ops, i, GetStep(w, i, fate).ops[i], key);
  }

  lemma GetStepOK(w: System, i: nat, fate: Fate, key: string)
    requires OpsOK(w) && KeyOK(w, key) && i < |w.ops| && w.ops[i].status.Running? && w.ops[i].input.GetInput?
    ensures KeyOK(GetStep(w, i, fate), key)
  {
    GetPoints(w, i, fate, key);
    GetReplay(w, i, fate, key);
    GetCounts(w, i, fate, key);
  }

  // An operation without a point on this key does not matter to its replay.
  lemma ReplaySameElsewhere(w: System, w': System, i: nat, key: string)
    requires PointsOK(w, key) && PointsOK(w', key) && ReplayOK(w, key) && i < |w.ops|
    requires PointsOf(w', key) == PointsOf(w, key) && StateOf(w'.store, key) == StateOf(w.store, key)
    requires |w'.ops| == |w.ops| && w'.ops == w.ops[i := w'.ops[i]]
    requires !HasPoint(PointsOf(w, key), i) || (w'.ops[i].input == w.ops[i].input
                                                && w'.ops[i].Output() == w.ops[i].Output()
                                                && AnsweredNoKey(w'.ops[i]) == AnsweredNoKey(w.ops[i]))
    ensures ReplayOK(w', key)
  {
    ReplayUntouched(w.ops, w'.ops, PointsOf(w, key), i);
  }

  lemma ReplayUntouched(ops: seq<Op>, ops': seq<Op>, points: seq<Point>, i: nat)
    requires i < |ops| == |ops'| && ops' == ops[i := ops'[i]]
    requires forall p :: p in points ==> p.op < |ops|
    requires !HasPoint(points, i) || (ops'[i].input == ops[i].input && ops'[i].Output() == ops[i].Output()
                                      && AnsweredNoKey(ops'[i]) == AnsweredNoKey(ops[i]))
    ensures Replay(ops', points) == Replay(ops, points)
    ensures forall p :: p in points ==> AnsweredNoKey(ops'[p.op]) == AnsweredNoKey(ops[p.op])
  {
    forall p | p in points
      ensures p.op == i ==> HasPoint(points, i)
    {
      var x :| 0 <= x < |points| && points[x] == p;
    }
    ReplaySame(ops, ops', points);
  }

  lemma OthersAnswered(w: System, w': System, i: nat, key: string)
    requires PointsOK(w, key) && i < |w.ops| && w.ops[i].status.Running? && w.ops[i].applied == 0
    ensures !HasPoint(PointsOf(w, key), i)
  {
    var points := PointsOf(w, key);
    assert forall x :: 0 <= x < |points| ==> points[x] in points && points[x].op != i;
  }

  lemma PutOpsOK(w: System, i: nat, fate: Fate)
    requires OpsOK(w) && i < |w.ops| && w.ops[i].status.Running? && w.ops[i].input.PutInput?
    ensures OpsOK(PutStep(w, i, fate))
    ensures var args := ArgsOf(w.ops[i].input); w.ops[i].applied == 1 ==> Write(w.store, args) == (w.store, ErrVersion)
  {
    var w' := PutStep(w, i, fate);
    assert OpOK(w.store, w.ops[i], w.now);
    forall j | 0 <= j < |w'.ops|
      ensures OpOK(w'.store, w'.ops[j], w'.now)
    {
      assert OpOK(w.store, w.ops[j], w.now);
      VersionsGrow(w.store, ArgsOf(w.ops[i].input), w.ops[j].input.key);
    }
  }

  // Whether this attempt places the Put among its key's points.
  predicate Places(w: System, i: nat, fate: Fate)
    requires i < |w.ops| && w.ops[i].status.Running? && w.ops[i].input.PutInput?
  {
    || (fate != DropRequest && Write(w.store, ArgsOf(w.ops[i].input)).1 == OK)
    || (PutStep(w, i, fate).ops[i].status.Done? && w.ops[i].applied == 0)
  }

  lemma PutPoints(w: System, i: nat, fate: Fate, key: string)
    requires OpsOK(w) && PointsOK(w, key)
    requires i < |w.ops| && w.ops[i].status.Running? && w.ops[i].input.PutInput?
    ensures PointsOK(PutStep(w, i, fate), key)
    ensures w.ops[i].input.key != key || Places(w, i, fate) ==> !HasPoint(PointsOf(w, key), i)
  {
    var w' := PutStep(w, i, fate);
    assert OpOK(w.store, w.ops[i], w.now);
    PutOpsOK(w, i, fate);
    if w.ops[i].input.key != key {
      ElsewherePoints(w, w', i, key);
    } else if Places(w, i, fate) {
      PointAdded(w, w', i, key);
    } else {
      PointsStay(w, w', i, key);
    }
  }

  // The attempt that places the Put is the one the model accepts, unless it answers ErrNoKey.
  lemma PutModel(w: System, i: nat, fate: Fate)
    requires i < |w.ops| && w.ops[i].status.Running? && w.ops[i].input.PutInput? && OpOK(w.store, w.ops[i], w.now)
    requires Places(w, i, fate)
    ensures var w' := PutStep(w, i, fate); var key := w.ops[i].input.key;
            var (accepted, st) := ModelStep(StateOf(w.store, key), w'.ops[i].input, w'.ops[i].Output());
            st == StateOf(w'.store, key) && (accepted <==> !AnsweredNoKey(w'.ops[i]))
  {
  }

  // Any other attempt leaves the state of every key and the Put's answer to the model as they were.
  lemma PutUnplaced(w: System, i: nat, fate: Fate, key: string)
    requires OpsOK(w) && i < |w.ops| && w.ops[i].status.Running? && w.ops[i].input.PutInput?
    requires w.ops[i].input.key != key || !Places(w, i, fate)
    ensures var w' := PutStep(w, i, fate);
            && PointsOf(w', key) == PointsOf(w, key) && StateOf(w'.store, key) == StateOf(w.store, key)
            && (w.ops[i].input.key == key ==>
                w'.ops[i].input == w.ops[i].input && w'.ops[i].Output() == w.ops[i].Output()
                && AnsweredNoKey(w'.ops[i]) == AnsweredNoKey(w.ops[i]))
  {
    assert OpOK(w.store, w.ops[i], w.now);
    PutOpsOK(w, i, fate);
  }

  lemma PutReplay(w: System, i: nat, fate: Fate, key: string)
    requires OpsOK(w) && PointsOK(w, key) && ReplayOK(w, key)
    requires i < |w.ops| && w.ops[i].status.Running? && w.ops[i].input.PutInput?
    requires PointsOK(PutStep(w, i, fate), key)
    requires w.ops[i].input.key != key || Places(w, i, fate) ==> !HasPoint(PointsOf(w, key), i)
    ensures ReplayOK(PutStep(w, i, fate), key)
  {
    var w' := PutStep(w, i, fate);
    assert OpOK(w.store, w.ops[i], w.now);
    if w.ops[i].input.key == key && Places(w, i, fate) {
      PutModel(w, i, fate);
      ReplayAdded(w, w', i, key);
    } else {
      PutUnplaced(w, i, fate, key);
      ReplaySameElsewhere(w, w', i, key);
    }
  }

  lemma PutCounts(w: System, i: nat, fate: Fate, key: string)
    requires OpsOK(w) && Puts(w.ops, key) == VersionOf(w.store, key)
    requires i < |w.ops| && w.ops[i].status.Running? && w.ops[i].input.PutInput?
    ensures Puts(PutStep(w, i, fate).ops, key) == VersionOf(PutStep(w, i, fate).store, key)
  {
    PutsUpdate(w.ops, i, PutStep(w, i, fate).ops[i], key);
    VersionsGrow(w.store, ArgsOf(w.ops[i].input), key);
  }

  lemma PutStepOK(w: System, i: nat, fate: Fate, key: string)
    requires OpsOK(w) && KeyOK(w, key) && i < |w.ops| && w.ops[i].status.Running? && w.ops[i].input.PutInput?
    ensures KeyOK(PutStep(w, i, fate), key)
  {
    PutPoints(w, i, fate, key);
    PutReplay(w, i, fate, key);
    PutCounts(w, i, fate, key);
  }

  lemma ElsewherePoints(w: System, w': System, i: nat, key: string)
    requires i < |w.ops| && PointsOK(w, key) && PointsOf(w', key) == PointsOf(w, key) && w'.now == w.now + 1
    requires |w'.ops| == |w.ops| && w'.ops == w.ops[i := w'.ops[i]]
    requires w.ops[i].input.key != key && w'.ops[i].input == w.ops[i].input
    ensures PointsOK(w', key) && !HasPoint(PointsOf(w, key), i)
  {
    var points := PointsOf(w, key);
    assert !HasPoint(points, i);
    forall j | 0 <= j < |w'.ops| && w'.ops[j].input.key == key
      ensures HasPoint(points, j) <==> w'.ops[j].status.Done? || w'.ops[j].applied == 1
    {
      assert HasPoint(points, j) <==> w.ops[j].status.Done? || w.ops[j].applied == 1;
    }
  }

  lemma KeyStep(w: System, a: Action, key: string)
    requires OpsOK(w) && KeyOK(w, key) && Enabled(w, a)
    ensures KeyOK(Do(w, a), key)
  {
    match a
    case Invoke(input) => InvokeStep(w, input, key);
    case Attempt(i, fate) =>
      if w.ops[i].input.GetInput? {
        GetStepOK(w, i, fate, key);
      } else {
        PutStepOK(w, i, fate, key);
      }
  }

  lemma OpsStep(w: System, a: Action)
    requires OpsOK(w) && Enabled(w, a)
    ensures OpsOK(Do(w, a))
  {
    match a
    case Invoke(input) => InvokeOpsOK(w, input);
    case Attempt(i, fate) =>
      if w.ops[i].input.GetInput? {
        GetOpsOK(w, i, fate);
      } else {
        PutOpsOK(w, i, fate);
      }
  }

  lemma InvStep(w: System, a: Action)
    requires Inv(w) && Enabled(w, a)
    ensures Inv(Do(w, a))
  {
    OpsStep(w, a);
    forall key
      ensures KeyOK(Do(w, a), key)
    {
      KeyStep(w, a, key);
    }
  }

  lemma {:induction false} RunInv(run: seq<Action>)
    requires Legal(run)
    ensures Inv(Exec(run))
    decreases |run|
  {
    if run != [] {
      RunInv(run[..|run| - 1]);
      InvStep(Exec(run[..|run| - 1]), run[|run| - 1]);
    }
  }
}
