/** What the histories of the key/value server look like to its clients: they are linearizable, but
    for the one answer that the specification (src/models1/kv.go) does not know.
 */
module KvHistory {
  import opened KvServer
  import opened KvLinear

  /// ## Linearizability

  // An order of operations on one key, each operation at most once.
  ghost predicate IsOrder(w: System, key: string, order: seq<nat>) {
    && Known(w.ops, order)
    && (forall x :: 0 <= x < |order| ==> w.ops[order[x]].input.key == key)
    && (forall x, y :: 0 <= x < y < |order| ==> order[x] != order[y])
    // every answered operation is in it
    && (forall i :: 0 <= i < |w.ops| && w.ops[i].input.key == key && w.ops[i].status.Done? ==> i in order)
  }

  predicate Known(ops: seq<Op>, order: seq<nat>) {
    forall x :: 0 <= x < |order| ==> order[x] < |ops|
  }

  // No operation comes after one that was only invoked when it had already been answered.
  ghost predicate RespectsTime(w: System, order: seq<nat>)
    requires Known(w.ops, order)
  {
    forall x, y :: 0 <= x < y < |order| ==>
      !(w.ops[order[y]].status.Done? && w.ops[order[y]].status.returned < w.ops[order[x]].invoked)
  }

  function Accepts(ops: seq<Op>, order: seq<nat>): (bool, KvState)
    requires Known(ops, order)
  {
    if order == [] then (true, KV_INIT)
    else
      var last := ops[order[|order| - 1]];
      var (ok, st) := Accepts(ops, order[..|order| - 1]);
      var (accepted, st') := ModelStep(st, last.input, last.Output());
      (ok && accepted, st')
  }

  ghost predicate Linearizes(w: System, key: string, order: seq<nat>) {
    IsOrder(w, key, order) && RespectsTime(w, order) && Accepts(w.ops, order).0
  }

  ghost predicate Linearizable(w: System, key: string) {
    exists order :: Linearizes(w, key, order)
  }

  ghost predicate SomePutAnsweredNoKey(w: System, key: string) {
    exists i :: 0 <= i < |w.ops| && w.ops[i].input.key == key && AnsweredNoKey(w.ops[i])
  }

  function OrderOf(points: seq<Point>): (r: seq<nat>)
    ensures |r| == |points| && forall x :: 0 <= x < |r| ==> r[x] == points[x].op
  {
    seq(|points|, x requires 0 <= x < |points| => points[x].op)
  }

  lemma {:induction false} OrderReplays(ops: seq<Op>, points: seq<Point>)
    requires forall p :: p in points ==> p.op < |ops|
    ensures Known(ops, OrderOf(points))
    ensures Accepts(ops, OrderOf(points)) == Replay(ops, points)
    decreases |points|
  {
    assert forall x :: 0 <= x < |points| ==> points[x] in points;
    if points != [] {
      OrderReplays(ops, points[..|points| - 1]);
      assert OrderOf(points)[..|points| - 1] == OrderOf(points[..|points| - 1]);
    }
  }

  lemma PointsAreOrder(w: System, key: string)
    requires PointsOK(w, key)
    ensures IsOrder(w, key, OrderOf(PointsOf(w, key)))
    ensures RespectsTime(w, OrderOf(PointsOf(w, key)))
  {
    var points := PointsOf(w, key);
    var order := OrderOf(points);
    OrderReplays(w.ops, points);
    forall i | 0 <= i < |w.ops| && w.ops[i].input.key == key && w.ops[i].status.Done?
      ensures i in order
    {
      assert HasPoint(points, i);
      var x :| 0 <= x < |points| && points[x].op == i;
      assert order[x] == i;
    }
    forall x, y | 0 <= x < y < |order|
      ensures !(w.ops[order[y]].status.Done? && w.ops[order[y]].status.returned < w.ops[order[x]].invoked)
    {
      assert points[x].time < points[y].time;
    }
  }

  // No order of any history contains a Put answered ErrNoKey and is accepted.
  lemma {:induction false} NoKeyRefused(ops: seq<Op>, order: seq<nat>, i: nat)
    requires Known(ops, order) && i < |ops| && i in order && AnsweredNoKey(ops[i])
    ensures !Accepts(ops, order).0
    decreases |order|
  {
    if order[|order| - 1] != i {
      assert order == order[..|order| - 1] + [order[|order| - 1]];
      NoKeyRefused(ops, order[..|order| - 1], i);
    }
  }

  // In every run the history of a key is linearizable exactly when no Put on it was answered
  // ErrNoKey, which the specification has no arm for.
  lemma LinearizableUnlessNoKey(run: seq<Action>, key: string)
    requires Legal(run)
    ensures Linearizable(Exec(run), key) <==> !SomePutAnsweredNoKey(Exec(run), key)
  {
    var w := Exec(run);
    RunInv(run);
    assert KeyOK(w, key);
    var points := PointsOf(w, key);
    if SomePutAnsweredNoKey(w, key) {
      var i :| 0 <= i < |w.ops| && w.ops[i].input.key == key && AnsweredNoKey(w.ops[i]);
      forall order | IsOrder(w, key, order)
        ensures !Accepts(w.ops, order).0
      {
        NoKeyRefused(w.ops, order, i);
      }
    } else {
      PointsAreOrder(w, key);
      OrderReplays(w.ops, points);
      assert Linearizes(w, key, OrderOf(points));
    }
  }

  /// ## What one attempt does

  // An attempt ends its operation exactly when its reply arrives.  A Get then reports what the key
  // holds, a Put what the server answered, with ErrVersion made ErrMaybe on a retry; a lost attempt
  // makes the next one a retry.  Only a Put that reached the server changes the store.
  lemma AttemptAnswers(w: System, i: nat, fate: Fate)
    requires Enabled(w, Attempt(i, fate))
    ensures var w' := Do(w, Attempt(i, fate)); var op, key := w.ops[i], w.ops[i].input.key;
            && |w'.ops| == |w.ops| && (forall j :: 0 <= j < |w.ops| && j != i ==> w'.ops[j] == w.ops[j])
            && w'.ops[i].input == op.input && w'.ops[i].invoked == op.invoked && w'.now == w.now + 1
            && (fate != Deliver ==> w'.ops[i].status == Running(true))
            && (fate == Deliver ==> w'.ops[i].status == Done(w'.ops[i].Output(), w.now))
            && (op.input.GetInput? ==> w'.store == w.store)
            && (op.input.GetInput? && fate == Deliver ==>
                  w'.ops[i].Output() == if key in w.store
                                        then KvOutput(w.store[key].value, w.store[key].version, OK)
                                        else KvOutput("", 0, ErrNoKey))
            && (op.input.PutInput? ==>
                  var (store, err) := Write(w.store, ArgsOf(op.input));
                  && w'.store == (if fate == DropRequest then w.store else store)
                  && (fate == Deliver ==>
                        w'.ops[i].Output() ==
                          KvOutput("", 0, if err == ErrVersion && op.status.retry then ErrMaybe else err)))
  {
  }

  /// ## When a Put is answered ErrNoKey

  // A Put on the key reaches the server with a version other than 0 while the key is missing, and
  // its reply is delivered.
  predicate MissesKey(w: System, a: Action, key: string)
    requires Enabled(w, a)
  {
    && a.Attempt? && a.fate == Deliver
    && w.ops[a.op].input.PutInput? && w.ops[a.op].input.key == key
    && key !in w.store && w.ops[a.op].input.version != 0
  }

  predicate NeverMisses(run: seq<Action>, key: string)
    requires Legal(run)
    decreases |run|
  {
    run != [] ==>
      && NeverMisses(run[..|run| - 1], key)
      && !MissesKey(Exec(run[..|run| - 1]), run[|run| - 1], key)
  }

  // One step adds such an answer exactly when it misses the key; answers given stay given.
  lemma NoKeyStep(w: System, a: Action, key: string)
    requires Enabled(w, a)
    ensures SomePutAnsweredNoKey(Do(w, a), key) <==> SomePutAnsweredNoKey(w, key) || MissesKey(w, a, key)
  {
    var w' := Do(w, a);
    if i :| 0 <= i < |w.ops| && w.ops[i].input.key == key && AnsweredNoKey(w.ops[i]) {
      assert w'.ops[i] == w.ops[i];
    }
    if MissesKey(w, a, key) {
      assert w'.ops[a.op].input.key == key && AnsweredNoKey(w'.ops[a.op]);
    }
    if i :| 0 <= i < |w'.ops| && w'.ops[i].input.key == key && AnsweredNoKey(w'.ops[i]) {
      assert (i < |w.ops| && w'.ops[i] == w.ops[i]) || MissesKey(w, a, key);
    }
  }

  lemma {:induction false} NoKeyIffMisses(run: seq<Action>, key: string)
    requires Legal(run)
    ensures SomePutAnsweredNoKey(Exec(run), key) <==> !NeverMisses(run, key)
    decreases |run|
  {
    if run != [] {
      var before := run[..|run| - 1];
      NoKeyIffMisses(before, key);
      NoKeyStep(Exec(before), run[|run| - 1], key);
    }
  }

  // In terms of the server's guard: a key's history is linearizable exactly when no Put with a
  // version other than 0 is answered while the key is missing.
  lemma LinearizableIffNeverMisses(run: seq<Action>, key: string)
    requires Legal(run)
    ensures Linearizable(Exec(run), key) <==> NeverMisses(run, key)
  {
    LinearizableUnlessNoKey(run, key);
    NoKeyIffMisses(run, key);
  }

  predicate AnsweredOK(op: Op, key: string) {
    op.input.key == key && op.status.Done? && op.status.output.err == OK
  }

  // What a caller can see to: before a Put with a version other than 0 is invoked, some operation
  // on the key has returned OK.
  ghost predicate KeySeenFirst(w: System, key: string) {
    forall i ::
      0 <= i < |w.ops| && w.ops[i].input.PutInput? && w.ops[i].input.key == key && w.ops[i].input.version != 0 ==>
        SeenBefore(w.ops, key, w.ops[i].invoked)
  }

  ghost predicate SeenBefore(ops: seq<Op>, key: string, time: nat) {
    exists j :: 0 <= j < |ops| && AnsweredOK(ops[j], key) && ops[j].status.returned < time
  }

  // A key that some answer has shown to exist exists, and was missing only before that answer.
  ghost predicate SeenOK(w: System, key: string) {
    && (forall j :: 0 <= j < |w.ops| && AnsweredOK(w.ops[j], key) ==> key in w.store)
    && (forall i, j ::
          (0 <= i < |w.ops| && 0 <= j < |w.ops| && w.ops[i].input.key == key && AnsweredNoKey(w.ops[i])
           && AnsweredOK(w.ops[j], key))
          ==> w.ops[i].status.returned < w.ops[j].status.returned)
    && (forall i :: 0 <= i < |w.ops| && AnsweredNoKey(w.ops[i]) ==> w.ops[i].input.version != 0)
  }

  // What one attempt leaves: the other operations, the keys stored, and an answer that tells
  // whether the key was there.
  lemma AttemptSees(w: System, i: nat, fate: Fate, key: string)
    requires OpsOK(w) && Enabled(w, Attempt(i, fate))
    ensures var w' := Do(w, Attempt(i, fate));
            && |w'.ops| == |w.ops| && w'.ops[i].input == w.ops[i].input
            && (forall j :: 0 <= j < |w.ops| && j != i ==> w'.ops[j] == w.ops[j])
            && (key in w.store ==> key in w'.store)
            && (w'.ops[i].status.Done? ==> w'.ops[i].status.returned == w.now)
            && (AnsweredOK(w'.ops[i], key) ==> key in w'.store)
            && (AnsweredNoKey(w'.ops[i]) ==> w.ops[i].input.key !in w.store && w.ops[i].input.version != 0)
  {
    assert OpOK(w.store, w.ops[i], w.now);
    if w.ops[i].input.PutInput? {
      VersionsGrow(w.store, ArgsOf(w.ops[i].input), key);
    }
  }

  lemma SeenStep(w: System, a: Action, key: string)
    requires OpsOK(w) && SeenOK(w, key) && Enabled(w, a)
    ensures SeenOK(Do(w, a), key)
  {
    assert forall i :: 0 <= i < |w.ops| ==> OpOK(w.store, w.ops[i], w.now);
    match a
    case Invoke(input) => assert forall i :: 0 <= i < |w.ops| ==> Do(w, a).ops[i] == w.ops[i];
    case Attempt(i, fate) => AttemptSees(w, i, fate, key);
  }

  lemma {:induction false} RunSeenOK(run: seq<Action>, key: string)
    requires Legal(run)
    ensures SeenOK(Exec(run), key)
    decreases |run|
  {
    if run != [] {
      var before := run[..|run| - 1];
      RunSeenOK(before, key);
      RunInv(before);
      SeenStep(Exec(before), run[|run| - 1], key);
    }
  }

  lemma NoKeyNotSeen(w: System, key: string, i: nat)
    requires OpsOK(w) && SeenOK(w, key) && i < |w.ops| && w.ops[i].input.key == key && AnsweredNoKey(w.ops[i])
    ensures w.ops[i].input.version != 0 && !SeenBefore(w.ops, key, w.ops[i].invoked)
  {
    assert OpOK(w.store, w.ops[i], w.now);
  }

  // Callers that put with a version other than 0 only after the key has been seen never get
  // ErrNoKey, and their history is linearizable.
  lemma SeenKeysLinearize(run: seq<Action>, key: string)
    requires Legal(run) && KeySeenFirst(Exec(run), key)
    ensures !SomePutAnsweredNoKey(Exec(run), key) && Linearizable(Exec(run), key)
  {
    var w := Exec(run);
    RunSeenOK(run, key);
    RunInv(run);
    forall i | 0 <= i < |w.ops| && w.ops[i].input.key == key ensures !AnsweredNoKey(w.ops[i]) {
      if AnsweredNoKey(w.ops[i]) {
        NoKeyNotSeen(w, key, i);
      }
    }
    LinearizableUnlessNoKey(run, key);
  }

  // The order is the one in which the attempts ran: the point of each operation lies within its
  // call, and replaying the points yields the value and version the server now stores.
  lemma PointsWithinCalls(run: seq<Action>, key: string, x: nat)
    requires Legal(run) && x < |PointsOf(Exec(run), key)|
    ensures var w := Exec(run); var p := PointsOf(w, key)[x];
            && p.op < |w.ops| && w.ops[p.op].input.key == key
            && w.ops[p.op].invoked < p.time
            && (w.ops[p.op].status.Done? ==> p.time <= w.ops[p.op].status.returned)
            && (forall y :: x < y < |PointsOf(w, key)| ==> p.time < PointsOf(w, key)[y].time)
  {
    RunInv(run);
    assert KeyOK(Exec(run), key);
    assert PointsOf(Exec(run), key)[x] in PointsOf(Exec(run), key);
  }

  // The version of a key is the number of Puts applied to it, whatever was lost on the way.
  lemma VersionCountsPuts(run: seq<Action>, key: string)
    requires Legal(run)
    ensures VersionOf(Exec(run).store, key) == Puts(Exec(run).ops, key)
  {
    RunInv(run);
    assert KeyOK(Exec(run), key);
  }

  // In every interleaving a Put is applied at most once, and its answer says what it may.
  lemma AnswersMeanIt(run: seq<Action>, i: nat)
    requires Legal(run) && i < |Exec(run).ops| && Exec(run).ops[i].input.PutInput?
    ensures var op := Exec(run).ops[i];
            && op.applied <= 1
            && (op.status.Done? && op.status.output.err == OK ==> op.applied == 1)
            && (op.status.Done? && (op.status.output.err == ErrVersion || op.status.output.err == ErrNoKey) ==>
                  op.applied == 0)
  {
    RunInv(run);
    assert OpOK(Exec(run).store, Exec(run).ops[i], Exec(run).now);
  }

  // A history that the specification refuses: a Put with version 1 on a key that does not exist.
  lemma NoKeyWitness()
    ensures var run := [Invoke(PutInput("k", "v", 1)), Attempt(0, Deliver)];
            Legal(run) && !Linearizable(Exec(run), "k")
  {
    var run := [Invoke(PutInput("k", "v", 1)), Attempt(0, Deliver)];
    assert run[..1] == [Invoke(PutInput("k", "v", 1))] && run[..1][..0] == [];
    assert Legal(run[..1][..0]) && Legal(run[..1]);
    var w1 := Exec(run[..1]);
    assert w1 == Do(Exec([]), Invoke(PutInput("k", "v", 1)));
    assert Legal(run);
    var w := Exec(run);
    assert w == PutStep(w1, 0, Deliver);
    assert AnsweredNoKey(w.ops[0]);
    assert SomePutAnsweredNoKey(w, "k");
    LinearizableUnlessNoKey(run, "k");
  }
}
