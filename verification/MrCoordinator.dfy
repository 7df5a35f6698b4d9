/** The MapReduce coordinator (src/mr/coordinator.go, src/mr/rpc.go): a state machine that
    hands out tasks, times them out, and counts the first completion of each.  Channels are
    numbers in order of creation, and a closed one is remembered.  These are the handlers
    on values and their runs; MrServer holds the class that updates its fields in place.
 */
module MrCoordinator {
  datatype TaskType = MapTasks | ReduceTasks | Wait | AllDone

  // What the coordinator knows of one kind of task.
  datatype Phase = Phase(running: map<nat, nat>, done: seq<bool>, finished: nat)

  datatype Coord = Coord(files: seq<string>, maps: Phase, reduces: Phase, chans: nat, closed: set<nat>)

  datatype Reply = Reply(fileName: string, nReduce: nat, taskType: TaskType, taskId: nat)

  // The goroutine started for one assignment: it waits for its timer or its channel.
  datatype Monitor = Monitor(taskType: TaskType, taskId: nat, chan: nat)

  datatype Option<T> = None | Some(value: T)

  /// ## One phase

  function Count(done: seq<bool>): (n: nat)
    ensures n <= |done|
  {
    if done == [] then 0 else Count(done[..|done| - 1]) + if done[|done| - 1] then 1 else 0
  }

  predicate Unassigned(p: Phase) { |p.done| > |p.running| + p.finished }

  predicate Free(p: Phase, t: nat) { t < |p.done| && t !in p.running && !p.done[t] }

  // Where the search loop stops: the first free entry, if any.
  function FirstFree(p: Phase, from: nat): (t: nat)
    requires from <= |p.done|
    ensures from <= t <= |p.done| && (t < |p.done| ==> Free(p, t))
    ensures forall k :: from <= k < t ==> !Free(p, k)
    decreases |p.done| - from
  {
    if from == |p.done| || Free(p, from) then from else FirstFree(p, from + 1)
  }

  ghost predicate PhaseOK(p: Phase) {
    && (forall t :: t in p.running ==> t < |p.done| && !p.done[t])
    && p.finished == Count(p.done)
  }

  function DoneSet(done: seq<bool>): set<nat> { set t: nat | t < |done| && done[t] }

  lemma {:induction false} CountIsSize(done: seq<bool>)
    ensures Count(done) == |DoneSet(done)|
  {
    if done != [] {
      var n := |done| - 1;
      CountIsSize(done[..n]);
      assert DoneSet(done) == DoneSet(done[..n]) + if done[n] then {n} else {};
    }
  }

  function Range(n: nat): (s: set<nat>)
    ensures |s| == n && forall t: nat :: t in s <==> t < n
  {
    if n == 0 then {} else Range(n - 1) + {n - 1}
  }

  // Counting alone tells whether a task is free: the counters leave room for one exactly
  // when the search finds one.
  lemma SearchFinds(p: Phase)
    requires PhaseOK(p)
    ensures Unassigned(p) <==> FirstFree(p, 0) < |p.done|
    ensures |p.running| + p.finished <= |p.done|
  {
    CountIsSize(p.done);
    var busy, all := p.running.Keys + DoneSet(p.done), Range(|p.done|);
    assert p.running.Keys !! DoneSet(p.done);
    assert |busy| == |p.running| + p.finished;
    Smaller(busy, all);
    if busy == all {
      forall t: nat | t < |p.done| ensures !Free(p, t) {
        assert t in busy;
      }
    } else {
      var t :| t in all && t !in busy;
      assert Free(p, t);
    }
  }

  lemma {:induction false} Smaller(a: set<nat>, b: set<nat>)
    requires a <= b
    ensures |a| <= |b| && (a != b ==> |a| < |b|)
  {
    assert b == a + (b - a);
    assert |b| == |a| + |b - a|;
    if a != b {
      assert b - a != {};
    }
  }

  function Start(p: Phase, t: nat, chan: nat): Phase { p.(running := p.running[t := chan]) }

  function Complete(p: Phase, t: nat): Phase
    requires t < |p.done|
  {
    Phase(p.running - {t}, p.done[t := true], p.finished + 1)
  }

  function Evict(p: Phase, t: nat): Phase { p.(running := p.running - {t}) }

  lemma {:induction false} CountSets(done: seq<bool>, t: nat)
    requires t < |done| && !done[t]
    ensures Count(done[t := true]) == Count(done) + 1
  {
    var n := |done| - 1;
    if t < n {
      assert done[t := true][..n] == done[..n][t := true];
      CountSets(done[..n], t);
    } else {
      assert done[t := true][..n] == done[..n];
    }
  }

  lemma {:induction false} CountFull(done: seq<bool>)
    ensures Count(done) == |done| <==> forall t :: 0 <= t < |done| ==> done[t]
  {
    if done != [] {
      CountFull(done[..|done| - 1]);
    }
  }

  // Running tasks have distinct channels, all made before and none closed.
  ghost predicate ChansOK(p: Phase, chans: nat, closed: set<nat>) {
    && (forall ch :: ch in closed ==> ch < chans)
    && (forall t :: t in p.running ==> p.running[t] < chans && p.running[t] !in closed)
    && forall t, t' :: t in p.running && t' in p.running && t != t' ==> p.running[t] != p.running[t']
  }

  lemma StartOK(p: Phase, t: nat, chans: nat, closed: set<nat>)
    requires PhaseOK(p) && ChansOK(p, chans, closed) && Free(p, t)
    ensures PhaseOK(Start(p, t, chans)) && ChansOK(Start(p, t, chans), chans + 1, closed)
  {
  }

  lemma CompleteOK(p: Phase, t: nat, chans: nat, closed: set<nat>)
    requires PhaseOK(p) && ChansOK(p, chans, closed) && t in p.running
    ensures PhaseOK(Complete(p, t)) && ChansOK(Complete(p, t), chans, closed + {p.running[t]})
  {
    CountSets(p.done, t);
  }

  lemma EvictOK(p: Phase, t: nat, chans: nat, closed: set<nat>)
    requires PhaseOK(p) && ChansOK(p, chans, closed) && t in p.running
    ensures PhaseOK(Evict(p, t)) && ChansOK(Evict(p, t), chans, closed + {p.running[t]})
  {
  }

  /// ## The coordinator

  function MakeCoordinator(files: seq<string>, nReduce: nat): Coord {
    Coord(files, Phase(map[], seq(|files|, _ => false), 0), Phase(map[], seq(nReduce, _ => false), 0), 0, {})
  }

  ghost predicate NoSharedChan(p: Phase, q: Phase) {
    forall t, t' :: t in p.running && t' in q.running ==> p.running[t] != q.running[t']
  }

  ghost predicate CoordOK(c: Coord) {
    && PhaseOK(c.maps) && PhaseOK(c.reduces) && |c.files| == |c.maps.done|
    && ChansOK(c.maps, c.chans, c.closed) && ChansOK(c.reduces, c.chans, c.closed)
    && NoSharedChan(c.maps, c.reduces)
    && (c.reduces.running != map[] || c.reduces.finished > 0 ==> c.maps.finished == |c.maps.done|)
  }

  predicate Done(c: Coord) {
    c.maps.finished == |c.maps.done| && c.reduces.finished == |c.reduces.done|
  }

  function NReduce(c: Coord): nat { |c.reduces.done| }

  function GetTask(c: Coord): (r: (Coord, Reply, Option<Monitor>))
    requires CoordOK(c)
  {
    if |c.maps.running| > 0 || Unassigned(c.maps) then
      if Unassigned(c.maps) then
        SearchFinds(c.maps);
        var t := FirstFree(c.maps, 0);
        (c.(maps := Start(c.maps, t, c.chans), chans := c.chans + 1),
         Reply(c.files[t], NReduce(c), MapTasks, t),
         Some(Monitor(MapTasks, t, c.chans)))
      else (c, Reply("", 0, Wait, 0), None)
    else if Unassigned(c.reduces) then
      SearchFinds(c.reduces);
      var t := FirstFree(c.reduces, 0);
      (c.(reduces := Start(c.reduces, t, c.chans), chans := c.chans + 1),
       Reply("", NReduce(c), ReduceTasks, t),
       Some(Monitor(ReduceTasks, t, c.chans)))
    else if |c.reduces.running| > 0 then (c, Reply("", 0, Wait, 0), None)
    else (c, Reply("", 0, AllDone, 0), None)
  }

  // A completion counts only while its assignment is running, whoever sends it.
  function FinishTask(c: Coord, taskType: TaskType, t: nat): Coord
    requires CoordOK(c)
  {
    match taskType
    case MapTasks =>
      if t in c.maps.running then
        c.(maps := Complete(c.maps, t), closed := c.closed + {c.maps.running[t]})
      else c
    case ReduceTasks =>
      if t in c.reduces.running then
        c.(reduces := Complete(c.reduces, t), closed := c.closed + {c.reduces.running[t]})
      else c
    case _ => c
  }

  // A monitor whose timer fired: whatever assignment is running under its ID is dropped.
  function TimeOut(c: Coord, m: Monitor): Coord {
    match m.taskType
    case MapTasks =>
      if m.taskId in c.maps.running then
        c.(maps := Evict(c.maps, m.taskId), closed := c.closed + {c.maps.running[m.taskId]})
      else c
    case ReduceTasks =>
      if m.taskId in c.reduces.running then
        c.(reduces := Evict(c.reduces, m.taskId), closed := c.closed + {c.reduces.running[m.taskId]})
      else c
    case _ => c
  }

  /// ## Runs

  // The coordinator with its live monitors.
  datatype System = System(c: Coord, monitors: set<Monitor>)

  // Any worker may ask at any time and report anything at any time.  A monitor may fire
  // even after its channel was closed: both can be ready at once.
  datatype Event = Get | Finish(taskType: TaskType, taskId: nat) | Fire(m: Monitor) | Cancel(m: Monitor)

  predicate Legal(s: System, e: Event) {
    match e
    case Get => true
    case Finish(_, _) => true
    case Fire(m) => m in s.monitors
    case Cancel(m) => m in s.monitors && m.chan in s.c.closed
  }

  function Step(s: System, e: Event): System
    requires CoordOK(s.c) && Legal(s, e)
  {
    match e
    case Get =>
      var (c, _, monitor) := GetTask(s.c);
      System(c, s.monitors + if monitor.Some? then {monitor.value} else {})
    case Finish(taskType, t) => System(FinishTask(s.c, taskType, t), s.monitors)
    case Fire(m) => System(TimeOut(s.c, m), s.monitors - {m})
    case Cancel(m) => System(s.c, s.monitors - {m})
  }

  // A live monitor belongs to the assignment of its task that is running now, or its task
  // is done.
  ghost predicate Current(p: Phase, chans: nat, t: nat, chan: nat) {
    && chan < chans && t < |p.done|
    && (p.done[t] || (t in p.running && p.running[t] == chan))
  }

  ghost predicate MonitorOK(c: Coord, m: Monitor) {
    match m.taskType
    case MapTasks => Current(c.maps, c.chans, m.taskId, m.chan)
    case ReduceTasks => Current(c.reduces, c.chans, m.taskId, m.chan)
    case _ => false
  }

  // Every running assignment still has its monitor, so it can always be timed out.
  ghost predicate Watched(p: Phase, taskType: TaskType, monitors: set<Monitor>) {
    forall t :: t in p.running ==> Monitor(taskType, t, p.running[t]) in monitors
  }

  ghost predicate MonitorsOK(c: Coord, monitors: set<Monitor>) {
    && (forall m {:trigger MonitorOK(c, m)} :: m in monitors ==> MonitorOK(c, m))
    && Watched(c.maps, MapTasks, monitors) && Watched(c.reduces, ReduceTasks, monitors)
  }

  ghost predicate SystemOK(s: System) { CoordOK(s.c) && MonitorsOK(s.c, s.monitors) }

  ghost predicate Next(s: System, e: Event, s': System) {
    CoordOK(s.c) && Legal(s, e) && s' == Step(s, e)
  }

  // A run: the states a fresh coordinator goes through.
  ghost predicate Run(files: seq<string>, nReduce: nat, events: seq<Event>, states: seq<System>) {
    && |states| == |events| + 1
    && states[0] == System(MakeCoordinator(files, nReduce), {})
    && forall i {:trigger events[i]} :: 0 <= i < |events| ==> Next(states[i], events[i], states[i + 1])
  }

  lemma FreshOK(files: seq<string>, nReduce: nat)
    ensures SystemOK(System(MakeCoordinator(files, nReduce), {}))
  {
    CountNone(|files|);
    CountNone(nReduce);
  }

  lemma {:induction false} CountNone(n: nat)
    ensures Count(seq(n, _ => false)) == 0
  {
    if n > 0 {
      CountNone(n - 1);
      assert seq(n, _ => false)[..n - 1] == seq(n - 1, _ => false);
    }
  }

  lemma GetKeepsCoord(c: Coord)
    requires CoordOK(c)
    ensures CoordOK(GetTask(c).0)
  {
    SearchFinds(c.maps);
    SearchFinds(c.reduces);
    if Unassigned(c.maps) {
      StartOK(c.maps, FirstFree(c.maps, 0), c.chans, c.closed);
    } else if Unassigned(c.reduces) {
      StartOK(c.reduces, FirstFree(c.reduces, 0), c.chans, c.closed);
    }
  }

  lemma FinishKeepsCoord(c: Coord, taskType: TaskType, t: nat)
    requires CoordOK(c)
    ensures CoordOK(FinishTask(c, taskType, t))
  {
    SearchFinds(c.maps);
    if taskType == MapTasks && t in c.maps.running {
      CompleteOK(c.maps, t, c.chans, c.closed);
      SearchFinds(Complete(c.maps, t));
    } else if taskType == ReduceTasks && t in c.reduces.running {
      CompleteOK(c.reduces, t, c.chans, c.closed);
    }
  }

  lemma TimeOutKeepsCoord(c: Coord, m: Monitor)
    requires CoordOK(c)
    ensures CoordOK(TimeOut(c, m))
  {
    if m.taskType == MapTasks && m.taskId in c.maps.running {
      EvictOK(c.maps, m.taskId, c.chans, c.closed);
    } else if m.taskType == ReduceTasks && m.taskId in c.reduces.running {
      EvictOK(c.reduces, m.taskId, c.chans, c.closed);
    }
  }

  lemma GetKeeps(s: System)
    requires SystemOK(s)
    ensures MonitorsOK(Step(s, Get).c, Step(s, Get).monitors)
  {
    SearchFinds(s.c.maps);
    SearchFinds(s.c.reduces);
    var s' := Step(s, Get);
    forall m | m in s.monitors ensures MonitorOK(s'.c, m) {
      assert MonitorOK(s.c, m);
    }
  }

  lemma FinishKeeps(s: System, taskType: TaskType, t: nat)
    requires SystemOK(s)
    ensures MonitorsOK(FinishTask(s.c, taskType, t), s.monitors)
  {
    forall m | m in s.monitors ensures MonitorOK(FinishTask(s.c, taskType, t), m) {
      assert MonitorOK(s.c, m);
    }
  }

  // A timeout ends its own assignment or nothing: an old monitor never evicts a newer one,
  // and the channel it closes was open.
  lemma TimeOutIsOwn(s: System, m: Monitor)
    requires SystemOK(s) && m in s.monitors
    ensures TimeOut(s.c, m) == s.c
         || (m.chan !in s.c.closed && TimeOut(s.c, m).closed == s.c.closed + {m.chan})
  {
    assert MonitorOK(s.c, m);
  }

  lemma FireKeeps(s: System, m: Monitor)
    requires SystemOK(s) && m in s.monitors
    ensures MonitorsOK(TimeOut(s.c, m), s.monitors - {m})
  {
    assert MonitorOK(s.c, m);
    forall k | k in s.monitors - {m} ensures MonitorOK(TimeOut(s.c, m), k) {
      assert MonitorOK(s.c, k);
    }
  }

  lemma CancelKeeps(s: System, m: Monitor)
    requires SystemOK(s) && m.chan in s.c.closed
    ensures MonitorsOK(s.c, s.monitors - {m})
  {
    forall k | k in s.monitors - {m} ensures MonitorOK(s.c, k) {
    }
  }

  lemma StepKeeps(s: System, e: Event, s': System)
    requires SystemOK(s) && Next(s, e, s')
    ensures SystemOK(s') && s'.c.files == s.c.files && NReduce(s'.c) == NReduce(s.c)
  {
    match e {
      case Get =>
        GetKeepsCoord(s.c);
        GetKeeps(s);
      case Finish(taskType, t) =>
        FinishKeepsCoord(s.c, taskType, t);
        FinishKeeps(s, taskType, t);
      case Fire(m) =>
        TimeOutKeepsCoord(s.c, m);
        FireKeeps(s, m);
      case Cancel(m) =>
        CancelKeeps(s, m);
    }
  }

  // In every run: running and done tasks are disjoint, the counters count the done tasks,
  // open channels are distinct, nothing is reduced before all maps are done, and every
  // live monitor belongs to the present assignment of its task or to a finished one.
  lemma {:induction false} RunKeeps(files: seq<string>, nReduce: nat, events: seq<Event>, states: seq<System>,
                                    i: nat)
    requires Run(files, nReduce, events, states) && i < |states|
    ensures SystemOK(states[i]) && states[i].c.files == files && NReduce(states[i].c) == nReduce
  {
    if i == 0 {
      FreshOK(files, nReduce);
    } else {
      RunKeeps(files, nReduce, events, states, i - 1);
      assert Next(states[i - 1], events[i - 1], states[i]);
      StepKeeps(states[i - 1], events[i - 1], states[i]);
    }
  }

  /// ## What the answers mean

  // An assignment names a task that was neither running nor done and now runs under a new
  // channel; a reduce task is handed out only when every map is done; "done" is answered
  // exactly when the job is done; and "wait" only while something is running.
  lemma AnswerMeans(c: Coord)
    requires CoordOK(c)
    ensures var (c', reply, monitor) := GetTask(c);
            match reply.taskType
            case MapTasks =>
              && Free(c.maps, reply.taskId) && reply.fileName == c.files[reply.taskId]
              && c' == c.(maps := Start(c.maps, reply.taskId, c.chans), chans := c.chans + 1)
              && monitor == Some(Monitor(MapTasks, reply.taskId, c.chans))
            case ReduceTasks =>
              && Free(c.reduces, reply.taskId)
              && (forall t :: 0 <= t < |c.maps.done| ==> c.maps.done[t])
              && c' == c.(reduces := Start(c.reduces, reply.taskId, c.chans), chans := c.chans + 1)
              && monitor == Some(Monitor(ReduceTasks, reply.taskId, c.chans))
            case Wait => c' == c && !Done(c) && (c.maps.running != map[] || c.reduces.running != map[])
            case AllDone => c' == c && Done(c)
    ensures Done(c) ==> GetTask(c).1.taskType == AllDone
  {
    SearchFinds(c.maps);
    SearchFinds(c.reduces);
    CountFull(c.maps.done);
    EmptyRunning(c.maps);
    EmptyRunning(c.reduces);
  }

  lemma EmptyRunning(p: Phase)
    ensures |p.running| == 0 <==> p.running == map[]
  {
    if |p.running| == 0 {
      assert p.running.Keys == {};
    }
  }

  // Which task an answer is about: the first free map task while there is one, then nothing while a
  // map is running, then the first free reduce task.  An assignment says how many buckets there are.
  lemma AnswerPicks(c: Coord)
    requires CoordOK(c)
    ensures var (c', reply, monitor) := GetTask(c);
            && (reply.taskType == MapTasks <==> exists t :: Free(c.maps, t))
            && (reply.taskType == ReduceTasks <==>
                  (forall t :: 0 <= t < |c.maps.done| ==> c.maps.done[t]) && exists t :: Free(c.reduces, t))
            && (reply.taskType == MapTasks ==>
                  && (forall k :: 0 <= k < reply.taskId ==> !Free(c.maps, k))
                  && c'.maps == c.maps.(running := c.maps.running[reply.taskId := c.chans])
                  && c' == c.(maps := c'.maps, chans := c.chans + 1)
                  && monitor == Some(Monitor(MapTasks, reply.taskId, c.chans)))
            && (reply.taskType == ReduceTasks ==>
                  && (forall k :: 0 <= k < reply.taskId ==> !Free(c.reduces, k))
                  && c'.reduces == c.reduces.(running := c.reduces.running[reply.taskId := c.chans])
                  && c' == c.(reduces := c'.reduces, chans := c.chans + 1)
                  && monitor == Some(Monitor(ReduceTasks, reply.taskId, c.chans)))
            && (reply.taskType == MapTasks || reply.taskType == ReduceTasks ==> reply.nReduce == |c.reduces.done|)
            && (reply.taskType == Wait || reply.taskType == AllDone ==> c' == c && monitor == None)
  {
    AnswerMeans(c);
    SearchFinds(c.maps);
    SearchFinds(c.reduces);
    AllOrFree(c.maps);
    AllOrFree(c.reduces);
    assert Free(c.maps, FirstFree(c.maps, 0)) <==> exists t :: Free(c.maps, t);
    assert Free(c.reduces, FirstFree(c.reduces, 0)) <==> exists t :: Free(c.reduces, t);
  }

  // A task is done, running or free.
  lemma AllOrFree(p: Phase)
    requires PhaseOK(p)
    ensures (forall t :: 0 <= t < |p.done| ==> p.done[t]) <==> |p.running| == 0 && !Unassigned(p)
  {
    CountFull(p.done);
    EmptyRunning(p);
    SearchFinds(p);
    if |p.running| > 0 {
      var t :| t in p.running;
      assert !p.done[t];
    }
  }

  /// ## What a completion and a timeout change

  // The task is done and counted, and no longer running; all others are as they were.
  ghost predicate Completed(p: Phase, t: nat, p': Phase) {
    && t in p.running && t !in p'.running
    && |p'.done| == |p.done| && (forall k :: 0 <= k < |p.done| ==> (p'.done[k] <==> p.done[k] || k == t))
    && p'.finished == p.finished + 1
    && (forall k :: k in p'.running <==> k in p.running && k != t)
    && (forall k :: k in p'.running ==> p'.running[k] == p.running[k])
  }

  // The task may be assigned again; nothing else has changed.
  ghost predicate Evicted(p: Phase, t: nat, p': Phase) {
    && t in p.running && t !in p'.running
    && p'.done == p.done && p'.finished == p.finished
    && (forall k :: k in p'.running <==> k in p.running && k != t)
    && (forall k :: k in p'.running ==> p'.running[k] == p.running[k])
  }

  // A completion of a running task of either kind counts once and closes its channel; any other
  // completion changes nothing.
  ghost predicate FinishEffect(c: Coord, taskType: TaskType, t: nat, c': Coord) {
    if taskType == MapTasks && t in c.maps.running then
      && Completed(c.maps, t, c'.maps)
      && c' == c.(maps := c'.maps, closed := c.closed + {c.maps.running[t]})
    else if taskType == ReduceTasks && t in c.reduces.running then
      && Completed(c.reduces, t, c'.reduces)
      && c' == c.(reduces := c'.reduces, closed := c.closed + {c.reduces.running[t]})
    else c' == c
  }

  lemma FinishHasEffect(c: Coord, taskType: TaskType, t: nat)
    requires CoordOK(c)
    ensures FinishEffect(c, taskType, t, FinishTask(c, taskType, t))
  {
  }

  ghost predicate TimeOutEffect(c: Coord, m: Monitor, c': Coord) {
    if m.taskType == MapTasks && m.taskId in c.maps.running then
      && Evicted(c.maps, m.taskId, c'.maps)
      && c' == c.(maps := c'.maps, closed := c.closed + {c.maps.running[m.taskId]})
    else if m.taskType == ReduceTasks && m.taskId in c.reduces.running then
      && Evicted(c.reduces, m.taskId, c'.reduces)
      && c' == c.(reduces := c'.reduces, closed := c.closed + {c.reduces.running[m.taskId]})
    else c' == c
  }

  lemma TimeOutHasEffect(c: Coord, m: Monitor)
    ensures TimeOutEffect(c, m, TimeOut(c, m))
  {
  }

  /// ## Between two moments of a run

  // Nothing done is undone, and the counters only grow.
  ghost predicate Later(p: Phase, q: Phase) {
    && |p.done| == |q.done| && p.finished <= q.finished
    && forall t :: 0 <= t < |p.done| && p.done[t] ==> q.done[t]
  }

  lemma GetOnlyAdds(c: Coord)
    requires CoordOK(c)
    ensures Later(c.maps, GetTask(c).0.maps) && Later(c.reduces, GetTask(c).0.reduces)
  {
    SearchFinds(c.maps);
    SearchFinds(c.reduces);
  }

  lemma FinishOnlyAdds(c: Coord, taskType: TaskType, t: nat)
    requires CoordOK(c)
    ensures Later(c.maps, FinishTask(c, taskType, t).maps) && Later(c.reduces, FinishTask(c, taskType, t).reduces)
  {
  }

  lemma StepOnlyAdds(s: System, e: Event, s': System)
    requires Next(s, e, s')
    ensures Later(s.c.maps, s'.c.maps) && Later(s.c.reduces, s'.c.reduces)
  {
    match e {
      case Get => GetOnlyAdds(s.c);
      case Finish(taskType, t) => FinishOnlyAdds(s.c, taskType, t);
      case Fire(m) => assert s'.c.maps.done == s.c.maps.done && s'.c.reduces.done == s.c.reduces.done;
      case Cancel(m) =>
    }
  }

  lemma {:induction false} RunOnlyAdds(files: seq<string>, nReduce: nat, events: seq<Event>, states: seq<System>,
                                       i: nat, j: nat)
    requires Run(files, nReduce, events, states) && i <= j < |states|
    ensures Later(states[i].c.maps, states[j].c.maps) && Later(states[i].c.reduces, states[j].c.reduces)
    decreases j
  {
    if i < j {
      RunOnlyAdds(files, nReduce, events, states, i, j - 1);
      assert Next(states[j - 1], events[j - 1], states[j]);
      StepOnlyAdds(states[j - 1], events[j - 1], states[j]);
    }
  }

  // Done() reads its two counters without the lock, perhaps at different moments i and j.
  // When it answers true the job was done by the later of them, and stays done.
  lemma DoneIsFinal(files: seq<string>, nReduce: nat, events: seq<Event>, states: seq<System>,
                    i: nat, j: nat, k: nat)
    requires Run(files, nReduce, events, states) && i <= j <= k < |states|
    requires states[i].c.maps.finished == |states[i].c.maps.done|
    requires states[j].c.reduces.finished == |states[j].c.reduces.done|
    ensures Done(states[j].c) && Done(states[k].c)
    ensures forall t :: 0 <= t < |states[k].c.maps.done| ==> states[k].c.maps.done[t]
    ensures forall t :: 0 <= t < |states[k].c.reduces.done| ==> states[k].c.reduces.done[t]
  {
    RunOnlyAdds(files, nReduce, events, states, i, j);
    RunOnlyAdds(files, nReduce, events, states, j, k);
    RunKeeps(files, nReduce, events, states, j);
    RunKeeps(files, nReduce, events, states, k);
    SearchFinds(states[j].c.maps);
    SearchFinds(states[k].c.maps);
    SearchFinds(states[k].c.reduces);
    CountFull(states[k].c.maps.done);
    CountFull(states[k].c.reduces.done);
  }
}
