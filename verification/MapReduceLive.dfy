/** A job can always be finished: from every moment of every run with at least one worker, whatever
    crashed or stalled before, some continuation ends with the job done.  So the guarantees about
    finished jobs are about runs that exist.
 */
module MapReduceLive {
  import opened MapReduceData
  import opened MapReduceRun
  import C = MrCoordinator

  // A run so far: what was done and the states it went through.
  datatype Past = Past(actions: seq<Action>, states: seq<World>)

  ghost predicate Serves(job: Job) { job.nReduce > 0 && OrderFree(job.reducef) }

  // The run is one of `workers` workers and has led to s.
  ghost predicate At(job: Job, workers: nat, past: Past, s: World)
    requires job.nReduce > 0
  {
    && Run(job, workers, past.actions, past.states)
    && past.states[|past.states| - 1] == s
    && WorldOK(job, s) && |s.workers| == workers
  }

  ghost predicate GoesOn(past: Past, past': Past) {
    past.actions <= past'.actions && past.states <= past'.states
  }

  lemma WorkersStep(job: Job, s: World, a: Action, t: World)
    requires job.nReduce > 0 && Next(job, s, a, t)
    ensures |t.workers| == |s.workers|
  {
  }

  lemma RunSnoc(job: Job, workers: nat, past: Past, s: World, a: Action, t: World)
    requires job.nReduce > 0 && Run(job, workers, past.actions, past.states)
    requires past.states[|past.states| - 1] == s && Next(job, s, a, t)
    ensures Run(job, workers, past.actions + [a], past.states + [t])
  {
    var actions, states := past.actions + [a], past.states + [t];
    forall i | 0 <= i < |actions| ensures Next(job, states[i], actions[i], states[i + 1]) {
      if i < |past.actions| {
        assert Next(job, past.states[i], past.actions[i], past.states[i + 1]);
      }
    }
  }

  // One more step.
  lemma Advance(job: Job, workers: nat, past: Past, s: World, a: Action, t: World) returns (past': Past)
    requires Serves(job) && At(job, workers, past, s) && Next(job, s, a, t)
    ensures At(job, workers, past', t) && GoesOn(past, past')
  {
    past' := Past(past.actions + [a], past.states + [t]);
    RunSnoc(job, workers, past, s, a, t);
    StepKeeps(job, s, a, t);
    WorkersStep(job, s, a, t);
  }

  lemma {:induction false} WorkersStay(job: Job, workers: nat, past: Past, i: nat)
    requires Serves(job) && Run(job, workers, past.actions, past.states) && i < |past.states|
    ensures |past.states[i].workers| == workers
  {
    if i > 0 {
      WorkersStay(job, workers, past, i - 1);
      assert Next(job, past.states[i - 1], past.actions[i - 1], past.states[i]);
      WorkersStep(job, past.states[i - 1], past.actions[i - 1], past.states[i]);
    }
  }

  /// ## A lost assignment

  // The monitor of a running assignment fires, and the task is free again.
  lemma Reclaim(job: Job, workers: nat, past: Past, s: World, taskType: C.TaskType, task: nat)
    returns (past': Past, t: World)
    requires Serves(job) && At(job, workers, past, s)
    requires taskType == C.MapTasks || taskType == C.ReduceTasks
    requires task in (if taskType == C.MapTasks then s.sys.c.maps else s.sys.c.reduces).running
    ensures At(job, workers, past', t) && GoesOn(past, past')
    ensures var c, c' := s.sys.c, t.sys.c;
            if taskType == C.MapTasks then C.Evicted(c.maps, task, c'.maps) && c'.reduces == c.reduces
            else C.Evicted(c.reduces, task, c'.reduces) && c'.maps == c.maps
  {
    var phase := if taskType == C.MapTasks then s.sys.c.maps else s.sys.c.reduces;
    var m := C.Monitor(taskType, task, phase.running[task]);
    assert m in s.sys.monitors;
    t := s.(sys := C.Step(s.sys, C.Fire(m)));
    C.TimeOutHasEffect(s.sys.c, m);
    past' := Advance(job, workers, past, s, Fire(m), t);
  }

  lemma FewerRun(p: C.Phase, task: nat, p': C.Phase)
    requires C.Evicted(p, task, p')
    ensures |p'.running| < |p.running|
  {
    assert p'.running.Keys == p.running.Keys - {task};
    assert |p'.running| == |p'.running.Keys| && |p.running| == |p.running.Keys|;
  }

  /// ## One map task

  // All bucket files that are left are put in place.
  lemma {:induction false} RenameAll(job: Job, workers: nat, past: Past, s: World)
    returns (past': Past, t: World)
    requires Serves(job) && At(job, workers, past, s) && workers >= 1 && s.workers[0].Mapping?
    ensures At(job, workers, past', t) && GoesOn(past, past')
    ensures t.sys == s.sys && t.workers[0] == Ended(C.MapTasks, s.workers[0].task)
    decreases |s.workers[0].buckets| - s.workers[0].renamed
  {
    var x := s.workers[0];
    assert WorkerOK(job, s.sys.c, s.files, s.outs, x);
    var last := x.renamed + 1 == |x.buckets|;
    var x' := if last then Ended(C.MapTasks, x.task) else x.(renamed := x.renamed + 1);
    t := s.(files := s.files[(x.task, x.renamed) := x.buckets[x.renamed]], workers := s.workers[0 := x']);
    past' := Advance(job, workers, past, s, Rename(0), t);
    if !last {
      past', t := RenameAll(job, workers, past', t);
    }
  }

  // A worker asks and is given a map task.
  lemma AskMap(job: Job, workers: nat, past: Past, s: World) returns (past': Past, t: World, task: nat)
    requires Serves(job) && At(job, workers, past, s) && workers >= 1 && C.Unassigned(s.sys.c.maps)
    ensures At(job, workers, past', t) && GoesOn(past, past')
    ensures t.workers[0].Mapping? && t.workers[0].task == task
    ensures task in t.sys.c.maps.running
    ensures t.sys.c.maps.done == s.sys.c.maps.done && t.sys.c.maps.finished == s.sys.c.maps.finished
    ensures t.sys.c.reduces == s.sys.c.reduces
  {
    C.AnswerPicks(s.sys.c);
    C.SearchFinds(s.sys.c.maps);
    assert C.Free(s.sys.c.maps, C.FirstFree(s.sys.c.maps, 0));
    var reply := C.GetTask(s.sys.c).1;
    task := reply.taskId;
    t := s.(sys := C.Step(s.sys, C.Get), workers := s.workers[0 := Begin(job, reply)]);
    past' := Advance(job, workers, past, s, Ask(0), t);
  }

  // A worker reports its ended task, which is still running for the coordinator.
  lemma ReportEnded(job: Job, workers: nat, past: Past, s: World, taskType: C.TaskType, task: nat)
    returns (past': Past, t: World)
    requires Serves(job) && At(job, workers, past, s) && workers >= 1 && s.workers[0] == Ended(taskType, task)
    requires taskType == C.MapTasks || taskType == C.ReduceTasks
    requires task in (if taskType == C.MapTasks then s.sys.c.maps else s.sys.c.reduces).running
    ensures At(job, workers, past', t) && GoesOn(past, past')
    ensures var c, c' := s.sys.c, t.sys.c;
            if taskType == C.MapTasks then C.Completed(c.maps, task, c'.maps) && c'.reduces == c.reduces
            else C.Completed(c.reduces, task, c'.reduces) && c'.maps == c.maps
  {
    t := s.(sys := C.Step(s.sys, C.Finish(taskType, task)));
    C.FinishHasEffect(s.sys.c, taskType, task);
    past' := Advance(job, workers, past, s, Report(0), t);
  }

  lemma OneMap(job: Job, workers: nat, past: Past, s: World) returns (past': Past, t: World)
    requires Serves(job) && At(job, workers, past, s) && workers >= 1 && C.Unassigned(s.sys.c.maps)
    ensures At(job, workers, past', t) && GoesOn(past, past')
    ensures t.sys.c.maps.finished == s.sys.c.maps.finished + 1 && |t.sys.c.maps.done| == |s.sys.c.maps.done|
    ensures t.sys.c.reduces == s.sys.c.reduces
  {
    var task;
    past', t, task := AskMap(job, workers, past, s);
    past', t := RenameAll(job, workers, past', t);
    past', t := ReportEnded(job, workers, past', t, C.MapTasks, task);
  }

  /// ## One reduce task

  lemma {:induction false} Sortable(s: seq<KeyValue>) returns (t: seq<KeyValue>)
    ensures Sorts(s, t)
  {
    if s == [] {
      t := [];
    } else {
      var n := |s| - 1;
      var u := Sortable(s[..n]);
      var i := PlaceFor(u, s[n], |u|);
      InsertOrders(u, i, s[n]);
      t := u[..i] + [s[n]] + u[i..];
      assert s == s[..n] + [s[n]] && u == u[..i] + u[i..];
    }
  }

  // Where an insertion may go: after everything that is not greater.
  lemma {:induction false} PlaceFor(t: seq<KeyValue>, x: KeyValue, i: nat) returns (place: nat)
    requires i <= |t| && Ordered(t) && (i < |t| ==> Less(x.key, t[i].key))
    ensures place <= |t| && (forall k :: 0 <= k < place ==> !Less(x.key, t[k].key))
    ensures place < |t| ==> Less(x.key, t[place].key)
  {
    if i > 0 && Less(x.key, t[i - 1].key) {
      place := PlaceFor(t, x, i - 1);
    } else {
      place := i;
      forall k | 0 <= k < place ensures !Less(x.key, t[k].key) {
        if k < place - 1 && Less(x.key, t[k].key) {
          LessTransitive(x.key, t[k].key, t[place - 1].key);
        }
      }
    }
  }

  // A worker asks and is given a reduce task.
  lemma AskReduce(job: Job, workers: nat, past: Past, s: World) returns (past': Past, t: World, task: nat)
    requires Serves(job) && At(job, workers, past, s) && workers >= 1
    requires AllMapped(s.sys.c) && C.Unassigned(s.sys.c.reduces)
    ensures At(job, workers, past', t) && GoesOn(past, past')
    ensures t.workers[0] == Reducing(task) && task in t.sys.c.reduces.running
    ensures t.sys.c.maps == s.sys.c.maps && t.sys.c.reduces.done == s.sys.c.reduces.done
    ensures t.sys.c.reduces.finished == s.sys.c.reduces.finished
  {
    C.AnswerPicks(s.sys.c);
    C.SearchFinds(s.sys.c.reduces);
    assert C.Free(s.sys.c.reduces, C.FirstFree(s.sys.c.reduces, 0));
    var reply := C.GetTask(s.sys.c).1;
    task := reply.taskId;
    t := s.(sys := C.Step(s.sys, C.Get), workers := s.workers[0 := Begin(job, reply)]);
    past' := Advance(job, workers, past, s, Ask(0), t);
  }

  // It lists the bucket's files, which are all there.
  lemma List(job: Job, workers: nat, past: Past, s: World, task: nat) returns (past': Past, t: World)
    requires Serves(job) && At(job, workers, past, s) && workers >= 1
    requires s.workers[0] == Reducing(task)
    ensures At(job, workers, past', t) && GoesOn(past, past')
    ensures t.sys == s.sys && t.workers[0] == Collecting(task, Upto(|job.names|), 0, [])
  {
    assert WorkerOK(job, s.sys.c, s.files, s.outs, s.workers[0]);
    var order := Upto(|job.names|);
    forall m: nat ensures m in order <==> (m, task) in s.files {
      assert m < |job.names| ==> order[m] == m && Stored(job, s.files, m);
    }
    t := s.(workers := s.workers[0 := Collecting(task, order, 0, [])]);
    past' := Advance(job, workers, past, s, Glob(0, order), t);
  }

  // It reads what is left of them.
  lemma {:induction false} ReadAll(job: Job, workers: nat, past: Past, s: World)
    returns (past': Past, t: World)
    requires Serves(job) && At(job, workers, past, s) && workers >= 1 && s.workers[0].Collecting?
    requires forall m :: m in s.workers[0].order ==> (m, s.workers[0].task) in s.files
    ensures At(job, workers, past', t) && GoesOn(past, past')
    ensures t.sys == s.sys && t.workers[0].Collecting? && t.workers[0].task == s.workers[0].task
    ensures t.workers[0].next == |t.workers[0].order|
    decreases |s.workers[0].order| - s.workers[0].next
  {
    var x := s.workers[0];
    assert WorkerOK(job, s.sys.c, s.files, s.outs, x);
    if x.next == |x.order| {
      past', t := past, s;
    } else {
      t := s.(workers := s.workers[0 := x.(next := x.next + 1,
                                           got := x.got + s.files[(x.order[x.next], x.task)])]);
      past' := Advance(job, workers, past, s, Read(0), t);
      past', t := ReadAll(job, workers, past', t);
    }
  }

  // It sorts, groups, and puts its output in place.
  lemma WriteOut(job: Job, workers: nat, past: Past, s: World) returns (past': Past, t: World)
    requires Serves(job) && At(job, workers, past, s) && workers >= 1 && s.workers[0].Collecting?
    requires s.workers[0].next == |s.workers[0].order|
    ensures At(job, workers, past', t) && GoesOn(past, past')
    ensures t.sys == s.sys && t.workers[0] == Ended(C.ReduceTasks, s.workers[0].task)
  {
    var x := s.workers[0];
    var sorted := Sortable(x.got);
    t := s.(outs := s.outs[x.task := Lines(job.reducef, sorted)],
            workers := s.workers[0 := Ended(C.ReduceTasks, x.task)]);
    past' := Advance(job, workers, past, s, Output(0, sorted), t);
  }

  lemma AllFilesThere(job: Job, s: World, task: nat)
    requires job.nReduce > 0 && WorldOK(job, s) && AllMapped(s.sys.c) && task < job.nReduce
    ensures forall m :: m in Upto(|job.names|) ==> (m, task) in s.files
  {
    forall m | m in Upto(|job.names|) ensures (m, task) in s.files {
      assert Stored(job, s.files, m);
    }
  }

  lemma OneReduce(job: Job, workers: nat, past: Past, s: World) returns (past': Past, t: World)
    requires Serves(job) && At(job, workers, past, s) && workers >= 1
    requires AllMapped(s.sys.c) && C.Unassigned(s.sys.c.reduces)
    ensures At(job, workers, past', t) && GoesOn(past, past')
    ensures t.sys.c.maps == s.sys.c.maps
    ensures t.sys.c.reduces.finished == s.sys.c.reduces.finished + 1
    ensures |t.sys.c.reduces.done| == |s.sys.c.reduces.done|
  {
    var task;
    past', t, task := AskReduce(job, workers, past, s);
    past', t := List(job, workers, past', t, task);
    AllFilesThere(job, t, task);
    past', t := ReadAll(job, workers, past', t);
    past', t := WriteOut(job, workers, past', t);
    past', t := ReportEnded(job, workers, past', t, C.ReduceTasks, task);
  }

  /// ## The whole job

  lemma {:induction false} FinishMaps(job: Job, workers: nat, past: Past, s: World)
    returns (past': Past, t: World)
    requires Serves(job) && At(job, workers, past, s) && workers >= 1
    ensures At(job, workers, past', t) && GoesOn(past, past') && AllMapped(t.sys.c)
    decreases |s.sys.c.maps.done| - s.sys.c.maps.finished, |s.sys.c.maps.running|
  {
    var maps := s.sys.c.maps;
    C.AllOrFree(maps);
    if C.Unassigned(maps) {
      C.SearchFinds(maps);
      past', t := OneMap(job, workers, past, s);
      C.SearchFinds(t.sys.c.maps);
      past', t := FinishMaps(job, workers, past', t);
    } else if |maps.running| > 0 {
      C.EmptyRunning(maps);
      var task :| task in maps.running;
      past', t := Reclaim(job, workers, past, s, C.MapTasks, task);
      FewerRun(maps, task, t.sys.c.maps);
      past', t := FinishMaps(job, workers, past', t);
    } else {
      past', t := past, s;
    }
  }

  lemma {:induction false} FinishReduces(job: Job, workers: nat, past: Past, s: World)
    returns (past': Past, t: World)
    requires Serves(job) && At(job, workers, past, s) && workers >= 1 && AllMapped(s.sys.c)
    ensures At(job, workers, past', t) && GoesOn(past, past') && C.Done(t.sys.c)
    decreases |s.sys.c.reduces.done| - s.sys.c.reduces.finished, |s.sys.c.reduces.running|
  {
    var reduces := s.sys.c.reduces;
    C.CountFull(s.sys.c.maps.done);
    C.SearchFinds(reduces);
    C.EmptyRunning(reduces);
    if C.Unassigned(reduces) {
      past', t := OneReduce(job, workers, past, s);
      C.SearchFinds(t.sys.c.reduces);
      past', t := FinishReduces(job, workers, past', t);
    } else if |reduces.running| > 0 {
      var task :| task in reduces.running;
      past', t := Reclaim(job, workers, past, s, C.ReduceTasks, task);
      FewerRun(reduces, task, t.sys.c.reduces);
      past', t := FinishReduces(job, workers, past', t);
    } else {
      past', t := past, s;
    }
  }

  // From every run so far, with at least one worker, there is one that goes on from it and ends with
  // the job done and the sequential program's output.
  lemma JobCanFinish(job: Job, workers: nat, actions: seq<Action>, states: seq<World>)
    returns (actions': seq<Action>, states': seq<World>)
    requires job.nReduce > 0 && OrderFree(job.reducef) && workers >= 1
    requires Run(job, workers, actions, states)
    ensures Run(job, workers, actions', states') && actions <= actions' && states <= states'
    ensures C.Done(states'[|states'| - 1].sys.c)
    ensures forall sorted :: Sorts(AllPairs(job), sorted) ==>
              multiset(AllOuts(states'[|states'| - 1].outs, job.nReduce)) == multiset(Lines(job.reducef, sorted))
  {
    var past := Past(actions, states);
    var s := states[|states| - 1];
    RunKeeps(job, workers, actions, states, |states| - 1);
    WorkersStay(job, workers, past, |states| - 1);
    var past1, s1 := FinishMaps(job, workers, past, s);
    var past2, s2 := FinishReduces(job, workers, past1, s1);
    actions', states' := past2.actions, past2.states;
    forall sorted | Sorts(AllPairs(job), sorted)
      ensures multiset(AllOuts(s2.outs, job.nReduce)) == multiset(Lines(job.reducef, sorted))
    {
      DoneMeansSequential(job, s2, sorted);
    }
  }
}
