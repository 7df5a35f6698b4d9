/** Whole MapReduce jobs: the coordinator, any number of workers (src/mr/worker.go) and the
    files they share, against the sequential program (src/main/mrsequential.go).  A worker
    may crash, stall past the timeout, finish late or finish twice.  Temporary files are
    private to the worker that writes them and a rename is one step; the directory holds
    no intermediate files at first.
 */
module MapReduceRun {
  import opened MapReduceData
  import C = MrCoordinator

  // The input files, the number of buckets, and the application's functions.
  datatype Job = Job(names: seq<string>, read: string -> string, nReduce: nat,
                     mapf: (string, string) -> seq<KeyValue>,
                     reducef: (string, seq<string>) -> string,
                     hash: string -> nat)

  // The pairs map task m emits.
  function Emit(job: Job): nat -> seq<KeyValue> {
    (m: nat) => if m < |job.names| then job.mapf(job.names[m], job.read(job.names[m])) else []
  }

  function AllPairs(job: Job): seq<KeyValue> { Cat(Emit(job), Upto(|job.names|)) }

  /// ## The sequential program

  method Sequential(job: Job) returns (lines: seq<string>)
    ensures exists sorted :: Sorts(AllPairs(job), sorted) && lines == Lines(job.reducef, sorted)
    ensures OrderFree(job.reducef) ==> multiset(lines) == multiset(Expected(job.reducef, AllPairs(job)))
  {
    var intermediate := [];
    for m := 0 to |job.names|
      invariant intermediate == Cat(Emit(job), Upto(m))
    {
      var content := job.read(job.names[m]);
      var kva := job.mapf(job.names[m], content);
      CatSnoc<nat, KeyValue>(Emit(job), Upto(m), m);
      intermediate := intermediate + kva;
    }
    var sorted := SortByKey(intermediate);
    lines := ReduceSorted(job.reducef, sorted);
    if OrderFree(job.reducef) {
      SortedRunLines(job.reducef, AllPairs(job), sorted);
    }
  }

  /// ## Workers and files

  type Files = map<(nat, nat), seq<KeyValue>>

  // Where a worker is in its task.  Ended: its files are in place and it may report.
  datatype Worker =
    | Idle
    | Mapping(task: nat, buckets: seq<seq<KeyValue>>, renamed: nat)
    | Reducing(task: nat)
    | Collecting(task: nat, order: seq<nat>, next: nat, got: seq<KeyValue>)
    | Ended(taskType: C.TaskType, task: nat)

  datatype World = World(sys: C.System, workers: seq<Worker>, files: Files, outs: map<nat, seq<string>>)

  datatype Action =
    | Ask(w: nat)                                  // call GetTask and start on the answer
    | Rename(w: nat)                               // put the next bucket file in place
    | Glob(w: nat, order: seq<nat>)                // list this bucket's files, in any order
    | Read(w: nat)                                 // decode the next listed file
    | Output(w: nat, sorted: seq<KeyValue>)        // sort, group, reduce, rename the output
    | Report(w: nat)                               // call FinishTask
    | Fire(m: C.Monitor)                           // a monitor times out
    | Cancel(m: C.Monitor)                         // a monitor sees its channel closed

  // Bucket r of map task m's pairs: the contents of mr-m-r.
  function Bucket(job: Job, r: nat): nat -> seq<KeyValue>
    requires job.nReduce > 0
  {
    (m: nat) => InBucket(job.hash, job.nReduce, r, Emit(job)(m))
  }

  function Buckets(job: Job, m: nat): (b: seq<seq<KeyValue>>)
    requires job.nReduce > 0
    ensures |b| == job.nReduce && forall r :: 0 <= r < |b| ==> b[r] == Bucket(job, r)(m)
  {
    seq(job.nReduce, r requires 0 <= r < job.nReduce => Bucket(job, r)(m))
  }

  function Begin(job: Job, reply: C.Reply): Worker
    requires job.nReduce > 0
  {
    match reply.taskType
    case MapTasks => Mapping(reply.taskId, Buckets(job, reply.taskId), 0)
    case ReduceTasks => Reducing(reply.taskId)
    case _ => Idle
  }

  ghost predicate Next(job: Job, s: World, a: Action, s': World)
    requires job.nReduce > 0
  {
    && C.CoordOK(s.sys.c)
    && match a
       case Ask(w) =>
         // From any state: a crashed or stalled worker's place may be taken again.
         && w < |s.workers|
         && s' == s.(sys := C.Step(s.sys, C.Get),
                     workers := s.workers[w := Begin(job, C.GetTask(s.sys.c).1)])
       case Rename(w) =>
         && w < |s.workers| && s.workers[w].Mapping?
         && var x := s.workers[w];
         && x.renamed < |x.buckets|
         && s' == s.(files := s.files[(x.task, x.renamed) := x.buckets[x.renamed]],
                     workers := s.workers[w := if x.renamed + 1 == |x.buckets|
                                               then Ended(C.MapTasks, x.task)
                                               else x.(renamed := x.renamed + 1)])
       case Glob(w, order) =>
         && w < |s.workers| && s.workers[w].Reducing?
         && var r := s.workers[w].task;
         && NoRepeats(order) && (forall m: nat :: m in order <==> (m, r) in s.files)
         && s' == s.(workers := s.workers[w := Collecting(r, order, 0, [])])
       case Read(w) =>
         && w < |s.workers| && s.workers[w].Collecting?
         && var x := s.workers[w];
         && x.next < |x.order| && (x.order[x.next], x.task) in s.files
         && s' == s.(workers := s.workers[w := x.(next := x.next + 1,
                                                  got := x.got + s.files[(x.order[x.next], x.task)])])
       case Output(w, sorted) =>
         && w < |s.workers| && s.workers[w].Collecting?
         && var x := s.workers[w];
         && x.next == |x.order| && Sorts(x.got, sorted)
         && s' == s.(outs := s.outs[x.task := Lines(job.reducef, sorted)],
                     workers := s.workers[w := Ended(C.ReduceTasks, x.task)])
       case Report(w) =>
         && w < |s.workers| && s.workers[w].Ended?
         && s' == s.(sys := C.Step(s.sys, C.Finish(s.workers[w].taskType, s.workers[w].task)))
       case Fire(m) =>
         && C.Legal(s.sys, C.Fire(m))
         && s' == s.(sys := C.Step(s.sys, C.Fire(m)))
       case Cancel(m) =>
         && C.Legal(s.sys, C.Cancel(m))
         && s' == s.(sys := C.Step(s.sys, C.Cancel(m)))
  }

  ghost predicate Run(job: Job, workers: nat, actions: seq<Action>, states: seq<World>)
    requires job.nReduce > 0
  {
    && |states| == |actions| + 1
    && states[0] == World(C.System(C.MakeCoordinator(job.names, job.nReduce), {}),
                          seq(workers, _ => Idle), map[], map[])
    && forall i {:trigger actions[i]} :: 0 <= i < |actions| ==> Next(job, states[i], actions[i], states[i + 1])
  }

  /// ## What every run keeps

  // Every intermediate file holds its bucket of its task's pairs.
  ghost predicate FilesOK(job: Job, files: Files)
    requires job.nReduce > 0
  {
    forall m: nat, r: nat {:trigger (m, r) in files} :: (m, r) in files ==>
      m < |job.names| && r < job.nReduce && files[(m, r)] == Bucket(job, r)(m)
  }

  ghost predicate Stored(job: Job, files: Files, m: nat) {
    forall r: nat :: r < job.nReduce ==> (m, r) in files
  }

  // An output file holds the lines expected of its bucket of the whole input.
  ghost predicate OutOK(job: Job, r: nat, lines: seq<string>)
    requires job.nReduce > 0
  {
    multiset(lines) == multiset(Expected(job.reducef, InBucket(job.hash, job.nReduce, r, AllPairs(job))))
  }

  ghost predicate OutsOK(job: Job, outs: map<nat, seq<string>>)
    requires job.nReduce > 0
  {
    forall r {:trigger OutOK(job, r, outs[r])} :: r in outs ==> r < job.nReduce && OutOK(job, r, outs[r])
  }

  ghost predicate AllMapped(c: C.Coord) { forall m :: 0 <= m < |c.maps.done| ==> c.maps.done[m] }

  ghost predicate WorkerOK(job: Job, c: C.Coord, files: Files, outs: map<nat, seq<string>>, x: Worker)
    requires job.nReduce > 0
  {
    match x
    case Idle => true
    case Mapping(m, buckets, k) =>
      && m < |job.names| && buckets == Buckets(job, m) && k < |buckets|
      && forall r: nat :: r < k ==> (m, r) in files
    case Reducing(r) => r < job.nReduce && AllMapped(c)
    case Collecting(r, order, k, got) =>
      && r < job.nReduce && AllMapped(c) && NoRepeats(order)
      && (forall m: nat :: m in order <==> m < |job.names|)
      && k <= |order| && got == Cat(Bucket(job, r), order[..k])
    case Ended(taskType, t) =>
      match taskType
      case MapTasks => t < |job.names| && Stored(job, files, t)
      case ReduceTasks => t in outs
      case _ => false
  }

  // A task counted as done has its files in place.
  ghost predicate Backed(job: Job, c: C.Coord, files: Files, outs: map<nat, seq<string>>) {
    && (forall m {:trigger Stored(job, files, m)} {:trigger c.maps.done[m]} ::
          0 <= m < |c.maps.done| && c.maps.done[m] ==> Stored(job, files, m))
    && (forall r :: 0 <= r < |c.reduces.done| && c.reduces.done[r] ==> r in outs)
  }

  ghost predicate WorkersOK(job: Job, c: C.Coord, files: Files, outs: map<nat, seq<string>>, workers: seq<Worker>)
    requires job.nReduce > 0
  {
    forall w {:trigger WorkerOK(job, c, files, outs, workers[w])} :: 0 <= w < |workers| ==>
      WorkerOK(job, c, files, outs, workers[w])
  }

  ghost predicate WorldOK(job: Job, s: World)
    requires job.nReduce > 0
  {
    && C.SystemOK(s.sys) && s.sys.c.files == job.names && C.NReduce(s.sys.c) == job.nReduce
    && FilesOK(job, s.files) && OutsOK(job, s.outs)
    && Backed(job, s.sys.c, s.files, s.outs)
    && WorkersOK(job, s.sys.c, s.files, s.outs, s.workers)
  }

  // What a worker relies on only grows.
  lemma WorkersStay(job: Job, c: C.Coord, files: Files, outs: map<nat, seq<string>>, workers: seq<Worker>,
                    c': C.Coord, files': Files, outs': map<nat, seq<string>>)
    requires job.nReduce > 0 && WorkersOK(job, c, files, outs, workers)
    requires C.Later(c.maps, c'.maps) && files.Keys <= files'.Keys && outs.Keys <= outs'.Keys
    ensures WorkersOK(job, c', files', outs', workers)
  {
    forall w | 0 <= w < |workers| ensures WorkerOK(job, c', files', outs', workers[w]) {
      assert WorkerOK(job, c, files, outs, workers[w]);
    }
  }

  lemma OneWorker(job: Job, c: C.Coord, files: Files, outs: map<nat, seq<string>>, workers: seq<Worker>,
                  w: nat, x: Worker)
    requires job.nReduce > 0 && WorkersOK(job, c, files, outs, workers)
    requires w < |workers| && WorkerOK(job, c, files, outs, x)
    ensures WorkersOK(job, c, files, outs, workers[w := x])
  {
    var after := workers[w := x];
    forall v | 0 <= v < |after| ensures WorkerOK(job, c, files, outs, after[v]) {
      assert v != w ==> WorkerOK(job, c, files, outs, workers[v]);
    }
  }

  // A step of the coordinator that counts nothing new.
  lemma CoordStep(job: Job, s: World, e: C.Event, s': World)
    requires job.nReduce > 0 && WorldOK(job, s) && C.Legal(s.sys, e)
    requires s' == s.(sys := C.Step(s.sys, e))
    requires C.Step(s.sys, e).c.maps.done == s.sys.c.maps.done
    requires C.Step(s.sys, e).c.reduces.done == s.sys.c.reduces.done
    ensures WorldOK(job, s')
  {
    C.StepKeeps(s.sys, e, s'.sys);
    C.StepOnlyAdds(s.sys, e, s'.sys);
    WorkersStay(job, s.sys.c, s.files, s.outs, s.workers, s'.sys.c, s.files, s.outs);
  }

  lemma AskKeeps(job: Job, s: World, w: nat, s': World)
    requires job.nReduce > 0 && WorldOK(job, s) && Next(job, s, Ask(w), s')
    ensures WorldOK(job, s')
  {
    var mid := s.(sys := C.Step(s.sys, C.Get));
    CoordStep(job, s, C.Get, mid);
    C.AnswerMeans(s.sys.c);
    var x := Begin(job, C.GetTask(s.sys.c).1);
    assert WorkerOK(job, mid.sys.c, mid.files, mid.outs, x);
    OneWorker(job, mid.sys.c, mid.files, mid.outs, mid.workers, w, x);
  }

  lemma RenameKeeps(job: Job, s: World, w: nat, s': World)
    requires job.nReduce > 0 && WorldOK(job, s) && Next(job, s, Rename(w), s')
    ensures WorldOK(job, s')
  {
    var x := s.workers[w];
    assert WorkerOK(job, s.sys.c, s.files, s.outs, x);
    assert FilesOK(job, s'.files);
    forall m | 0 <= m < |s.sys.c.maps.done| && s.sys.c.maps.done[m] ensures Stored(job, s'.files, m) {
      assert Stored(job, s.files, m);
    }
    WorkersStay(job, s.sys.c, s.files, s.outs, s.workers, s.sys.c, s'.files, s.outs);
    OneWorker(job, s.sys.c, s'.files, s.outs, s.workers, w, s'.workers[w]);
  }

  lemma GlobKeeps(job: Job, s: World, w: nat, order: seq<nat>, s': World)
    requires job.nReduce > 0 && WorldOK(job, s) && Next(job, s, Glob(w, order), s')
    ensures WorldOK(job, s')
  {
    var r := s.workers[w].task;
    assert WorkerOK(job, s.sys.c, s.files, s.outs, s.workers[w]);
    forall m: nat ensures m in order <==> m < |job.names| {
      assert m < |job.names| ==> Stored(job, s.files, m);
      assert m in order <==> (m, r) in s.files;
    }
    OneWorker(job, s.sys.c, s.files, s.outs, s.workers, w, s'.workers[w]);
  }

  lemma ReadKeeps(job: Job, s: World, w: nat, s': World)
    requires job.nReduce > 0 && WorldOK(job, s) && Next(job, s, Read(w), s')
    ensures WorldOK(job, s')
  {
    var x := s.workers[w];
    assert WorkerOK(job, s.sys.c, s.files, s.outs, x);
    assert x.order[..x.next + 1] == x.order[..x.next] + [x.order[x.next]];
    CatSnoc(Bucket(job, x.task), x.order[..x.next], x.order[x.next]);
    OneWorker(job, s.sys.c, s.files, s.outs, s.workers, w, s'.workers[w]);
  }

  // Whatever order the files are read in, a reduce task collects its bucket of the input.
  lemma Collected(job: Job, r: nat, order: seq<nat>)
    requires job.nReduce > 0 && NoRepeats(order) && forall m: nat :: m in order <==> m < |job.names|
    ensures multiset(Cat(Bucket(job, r), order)) == multiset(InBucket(job.hash, job.nReduce, r, AllPairs(job)))
  {
    var upto := Upto(|job.names|);
    forall m: nat ensures m in order <==> m in upto {
      assert m < |job.names| ==> upto[m] == m;
    }
    SameBag(order, upto);
    CatPermutes(Bucket(job, r), order, upto);
    CatCat(ToBucket(job.hash, job.nReduce, r), Emit(job), Bucket(job, r), upto);
  }

  lemma OutputKeeps(job: Job, s: World, w: nat, sorted: seq<KeyValue>, s': World)
    requires job.nReduce > 0 && WorldOK(job, s) && Next(job, s, Output(w, sorted), s')
    requires OrderFree(job.reducef)
    ensures WorldOK(job, s')
  {
    var x := s.workers[w];
    assert WorkerOK(job, s.sys.c, s.files, s.outs, x);
    assert x.order[..x.next] == x.order;
    Collected(job, x.task, x.order);
    SortedRunLines(job.reducef, InBucket(job.hash, job.nReduce, x.task, AllPairs(job)), sorted);
    assert OutOK(job, x.task, s'.outs[x.task]);
    forall r | r in s'.outs ensures r < job.nReduce && OutOK(job, r, s'.outs[r]) {
      assert r != x.task ==> OutOK(job, r, s.outs[r]);
    }
    WorkersStay(job, s.sys.c, s.files, s.outs, s.workers, s.sys.c, s.files, s'.outs);
    OneWorker(job, s.sys.c, s.files, s'.outs, s.workers, w, s'.workers[w]);
  }

  lemma ReportKeeps(job: Job, s: World, w: nat, s': World)
    requires job.nReduce > 0 && WorldOK(job, s) && Next(job, s, Report(w), s')
    ensures WorldOK(job, s')
  {
    var x := s.workers[w];
    var e := C.Finish(x.taskType, x.task);
    assert WorkerOK(job, s.sys.c, s.files, s.outs, x);
    C.StepKeeps(s.sys, e, s'.sys);
    C.StepOnlyAdds(s.sys, e, s'.sys);
    WorkersStay(job, s.sys.c, s.files, s.outs, s.workers, s'.sys.c, s.files, s.outs);
    assert Backed(job, s'.sys.c, s.files, s.outs);
  }

  lemma StepKeeps(job: Job, s: World, a: Action, s': World)
    requires job.nReduce > 0 && OrderFree(job.reducef) && WorldOK(job, s) && Next(job, s, a, s')
    ensures WorldOK(job, s') && C.Later(s.sys.c.maps, s'.sys.c.maps) && C.Later(s.sys.c.reduces, s'.sys.c.reduces)
  {
    match a {
      case Ask(w) =>
        AskKeeps(job, s, w, s');
        C.StepOnlyAdds(s.sys, C.Get, s'.sys);
      case Rename(w) => RenameKeeps(job, s, w, s');
      case Glob(w, order) => GlobKeeps(job, s, w, order, s');
      case Read(w) => ReadKeeps(job, s, w, s');
      case Output(w, sorted) => OutputKeeps(job, s, w, sorted, s');
      case Report(w) =>
        ReportKeeps(job, s, w, s');
        C.StepOnlyAdds(s.sys, C.Finish(s.workers[w].taskType, s.workers[w].task), s'.sys);
      case Fire(m) =>
        CoordStep(job, s, C.Fire(m), s');
        C.StepOnlyAdds(s.sys, C.Fire(m), s'.sys);
      case Cancel(m) => CoordStep(job, s, C.Cancel(m), s');
    }
  }

  lemma StepAt(job: Job, workers: nat, actions: seq<Action>, states: seq<World>, i: nat)
    requires job.nReduce > 0 && OrderFree(job.reducef)
    requires Run(job, workers, actions, states) && i < |actions| && WorldOK(job, states[i])
    ensures WorldOK(job, states[i + 1])
    ensures C.Later(states[i].sys.c.maps, states[i + 1].sys.c.maps)
    ensures C.Later(states[i].sys.c.reduces, states[i + 1].sys.c.reduces)
  {
    var s, a, s' := states[i], actions[i], states[i + 1];
    StepKeeps(job, s, a, s');
  }

  lemma StartOK(job: Job, workers: nat, actions: seq<Action>, states: seq<World>)
    requires job.nReduce > 0 && Run(job, workers, actions, states)
    ensures WorldOK(job, states[0])
  {
    C.FreshOK(job.names, job.nReduce);
  }

  lemma {:induction false} RunKeeps(job: Job, workers: nat, actions: seq<Action>, states: seq<World>, i: nat)
    requires job.nReduce > 0 && OrderFree(job.reducef)
    requires Run(job, workers, actions, states) && i < |states|
    ensures WorldOK(job, states[i])
  {
    if i == 0 {
      StartOK(job, workers, actions, states);
    } else {
      RunKeeps(job, workers, actions, states, i - 1);
      StepAt(job, workers, actions, states, i - 1);
    }
  }

  lemma {:induction false} RunOnlyAdds(job: Job, workers: nat, actions: seq<Action>, states: seq<World>,
                                       i: nat, j: nat)
    requires job.nReduce > 0 && OrderFree(job.reducef)
    requires Run(job, workers, actions, states) && i <= j < |states|
    ensures C.Later(states[i].sys.c.maps, states[j].sys.c.maps)
    ensures C.Later(states[i].sys.c.reduces, states[j].sys.c.reduces)
    decreases j
  {
    if i < j {
      RunOnlyAdds(job, workers, actions, states, i, j - 1);
      RunKeeps(job, workers, actions, states, j - 1);
      StepAt(job, workers, actions, states, j - 1);
    }
  }

  /// ## End to end

  // mr-out-0, mr-out-1, ... one after the other.
  function AllOuts(outs: map<nat, seq<string>>, n: nat): seq<string> {
    Cat((r: nat) => if r in outs then outs[r] else [], Upto(n))
  }

  // When the job is done every output file is there, none is left over, and their lines
  // are together, as a multiset, those of the sequential program, whichever sort it uses.
  lemma DoneMeansSequential(job: Job, s: World, sorted: seq<KeyValue>)
    requires job.nReduce > 0 && OrderFree(job.reducef) && WorldOK(job, s) && C.Done(s.sys.c)
    requires Sorts(AllPairs(job), sorted)
    ensures forall r: nat :: r in s.outs <==> r < job.nReduce
    ensures multiset(AllOuts(s.outs, job.nReduce)) == multiset(Lines(job.reducef, sorted))
  {
    C.CountFull(s.sys.c.reduces.done);
    var n, all := job.nReduce, AllPairs(job);
    var out := (r: nat) => if r in s.outs then s.outs[r] else [];
    var expected := (r: nat) => Expected(job.reducef, InBucket(job.hash, n, r, all));
    forall r: nat ensures r in s.outs <==> r < n {
      assert r in s.outs ==> OutOK(job, r, s.outs[r]);
    }
    forall r | r in Upto(n) ensures multiset(out(r)) == multiset(expected(r)) {
      assert OutOK(job, r, s.outs[r]);
    }
    CatSameBags(out, expected, Upto(n));
    CatSame(out, (r: nat) => if r in s.outs then s.outs[r] else [], Upto(n));
    PartitionExpected(job.reducef, job.hash, n, all);
    CatSame(expected, (r: nat) => Expected(job.reducef, InBucket(job.hash, n, r, all)), Upto(n));
    SortedRunLines(job.reducef, all, sorted);
  }

  // The end-to-end theorem.  Done() reads the two counters at moments i and j; once it has
  // answered true the output is the sequential program's at every later moment k, even if
  // stalled workers are still writing.
  lemma JobMatchesSequential(job: Job, workers: nat, actions: seq<Action>, states: seq<World>,
                             i: nat, j: nat, k: nat, sorted: seq<KeyValue>)
    requires job.nReduce > 0 && OrderFree(job.reducef)
    requires Run(job, workers, actions, states) && i <= j <= k < |states|
    requires states[i].sys.c.maps.finished == |states[i].sys.c.maps.done|
    requires states[j].sys.c.reduces.finished == |states[j].sys.c.reduces.done|
    requires Sorts(AllPairs(job), sorted)
    ensures forall r: nat :: r in states[k].outs <==> r < job.nReduce
    ensures multiset(AllOuts(states[k].outs, job.nReduce)) == multiset(Lines(job.reducef, sorted))
  {
    RunOnlyAdds(job, workers, actions, states, i, k);
    RunOnlyAdds(job, workers, actions, states, j, k);
    RunKeeps(job, workers, actions, states, k);
    C.SearchFinds(states[k].sys.c.maps);
    C.SearchFinds(states[k].sys.c.reduces);
    DoneMeansSequential(job, states[k], sorted);
  }

  /// ## The worker's branches

  // The map branch up to its renames: the bucket files it writes.
  method MapBranch(job: Job, m: nat) returns (buckets: seq<seq<KeyValue>>)
    requires job.nReduce > 0 && m < |job.names|
    ensures buckets == Buckets(job, m)
  {
    var fileContent := job.read(job.names[m]);
    var keyValues := job.mapf(job.names[m], fileContent);
    buckets := FillBuckets(job.hash, job.nReduce, keyValues);
    assert keyValues == Emit(job)(m);
    forall r: nat | r < job.nReduce ensures buckets[r] == Buckets(job, m)[r] {
      assert Buckets(job, m)[r] == Bucket(job, r)(m);
    }
  }

  // The reduce branch: decode the listed files, sort, group.  Over complete bucket files
  // in any order its lines are those expected of the bucket.
  method ReduceBranch(job: Job, files: Files, r: nat, order: seq<nat>) returns (lines: seq<string>)
    requires job.nReduce > 0 && FilesOK(job, files)
    requires NoRepeats(order) && forall m: nat :: m in order <==> m < |job.names|
    requires forall m :: m in order ==> (m, r) in files
    ensures OrderFree(job.reducef) ==> OutOK(job, r, lines)
  {
    var mapResults := [];
    for i := 0 to |order|
      invariant mapResults == Cat(Bucket(job, r), order[..i])
    {
      var file := files[(order[i], r)];
      ghost var before := mapResults;
      for k := 0 to |file|
        invariant mapResults == before + file[..k]
      {
        mapResults := mapResults + [file[k]];
      }
      assert file[..|file|] == file;
      assert order[..i + 1] == order[..i] + [order[i]];
      CatSnoc(Bucket(job, r), order[..i], order[i]);
    }
    assert order[..|order|] == order;
    Collected(job, r, order);
    var sorted := SortByKey(mapResults);
    lines := ReduceSorted(job.reducef, sorted);
    if OrderFree(job.reducef) {
      SortedRunLines(job.reducef, InBucket(job.hash, job.nReduce, r, AllPairs(job)), sorted);
    }
  }
}
