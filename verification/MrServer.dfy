/** The coordinator's class (src/mr/coordinator.go, src/mr/rpc.go): its methods change its
    fields in place, in loops where the source loops, and are proved against MrCoordinator.
 */
module MrServer {
  import opened MrCoordinator
  import Spec = MrCoordinator

  datatype MapTask = MapTask(fileName: string, taskId: nat, done: bool)
  datatype ReduceTask = ReduceTask(taskId: nat, done: bool)

  function Names(tasks: seq<MapTask>): (names: seq<string>)
    ensures |names| == |tasks| && forall i :: 0 <= i < |tasks| ==> names[i] == tasks[i].fileName
  {
    seq(|tasks|, i requires 0 <= i < |tasks| => tasks[i].fileName)
  }

  function MapFlags(tasks: seq<MapTask>): (flags: seq<bool>)
    ensures |flags| == |tasks| && forall i :: 0 <= i < |tasks| ==> flags[i] == tasks[i].done
  {
    seq(|tasks|, i requires 0 <= i < |tasks| => tasks[i].done)
  }

  function ReduceFlags(tasks: seq<ReduceTask>): (flags: seq<bool>)
    ensures |flags| == |tasks| && forall i :: 0 <= i < |tasks| ==> flags[i] == tasks[i].done
  {
    seq(|tasks|, i requires 0 <= i < |tasks| => tasks[i].done)
  }

  class Coordinator {
    var nReduce: nat
    var finishedMapTasks: nat
    var finishedReduceTasks: nat
    var runningMapTasks: map<nat, nat>
    var mapTasks: seq<MapTask>
    var runningReduceTasks: map<nat, nat>
    var reduceTasks: seq<ReduceTask>
    var chans: nat
    var closed: set<nat>

    ghost function View(): Coord reads this {
      Coord(Names(mapTasks),
            Phase(runningMapTasks, MapFlags(mapTasks), finishedMapTasks),
            Phase(runningReduceTasks, ReduceFlags(reduceTasks), finishedReduceTasks),
            chans, closed)
    }

    ghost predicate Valid() reads this {
      && CoordOK(View()) && nReduce == |reduceTasks|
      && (forall i :: 0 <= i < |mapTasks| ==> mapTasks[i].taskId == i)
      && (forall i :: 0 <= i < |reduceTasks| ==> reduceTasks[i].taskId == i)
    }

    constructor MakeCoordinator(files: seq<string>, n: nat)
      ensures Valid() && View() == Spec.MakeCoordinator(files, n)
    {
      mapTasks, reduceTasks := [], [];
      nReduce, finishedMapTasks, finishedReduceTasks := n, 0, 0;
      runningMapTasks, runningReduceTasks := map[], map[];
      chans, closed := 0, {};
      new;
      for i := 0 to |files|
        invariant |mapTasks| == i && reduceTasks == []
        invariant forall k :: 0 <= k < i ==> mapTasks[k] == MapTask(files[k], k, false)
        invariant (nReduce, finishedMapTasks, finishedReduceTasks) == (n, 0, 0)
        invariant (runningMapTasks, runningReduceTasks, chans, closed) == (map[], map[], 0, {})
      {
        mapTasks := mapTasks + [MapTask(files[i], i, false)];
      }
      ghost var made := mapTasks;
      for i := 0 to n
        invariant |reduceTasks| == i && mapTasks == made
        invariant forall k :: 0 <= k < i ==> reduceTasks[k] == ReduceTask(k, false)
        invariant (nReduce, finishedMapTasks, finishedReduceTasks) == (n, 0, 0)
        invariant (runningMapTasks, runningReduceTasks, chans, closed) == (map[], map[], 0, {})
      {
        reduceTasks := reduceTasks + [ReduceTask(i, false)];
      }
      FreshOK(files, n);
      assert View().files == files;
      assert View() == Spec.MakeCoordinator(files, n);
    }

    method MakeChan() returns (ch: nat)
      modifies this`chans
      ensures ch == old(chans) && chans == old(chans) + 1
    {
      ch := chans;
      chans := chans + 1;
    }

    // Closing a closed channel panics.
    method Close(ch: nat)
      requires ch !in closed
      modifies this`closed
      ensures closed == old(closed) + {ch}
    {
      closed := closed + {ch};
    }

    // The search loops: the first task neither running nor done.
    method FindMap() returns (i: nat)
      requires forall k :: 0 <= k < |mapTasks| ==> mapTasks[k].taskId == k
      ensures i == FirstFree(Phase(runningMapTasks, MapFlags(mapTasks), finishedMapTasks), 0)
    {
      ghost var p := Phase(runningMapTasks, MapFlags(mapTasks), finishedMapTasks);
      for k := 0 to |mapTasks|
        invariant k <= FirstFree(p, 0)
      {
        var task := mapTasks[k];
        if task.taskId !in runningMapTasks && !task.done {
          assert Free(p, k);
          return k;
        }
        assert !Free(p, k);
      }
      return |mapTasks|;
    }

    method FindReduce() returns (i: nat)
      requires forall k :: 0 <= k < |reduceTasks| ==> reduceTasks[k].taskId == k
      ensures i == FirstFree(Phase(runningReduceTasks, ReduceFlags(reduceTasks), finishedReduceTasks), 0)
    {
      ghost var p := Phase(runningReduceTasks, ReduceFlags(reduceTasks), finishedReduceTasks);
      for k := 0 to |reduceTasks|
        invariant k <= FirstFree(p, 0)
      {
        var task := reduceTasks[k];
        if task.taskId !in runningReduceTasks && !task.done {
          assert Free(p, k);
          return k;
        }
        assert !Free(p, k);
      }
      return |reduceTasks|;
    }

    method AssignMap() returns (reply: Reply, monitor: Monitor)
      requires forall k :: 0 <= k < |mapTasks| ==> mapTasks[k].taskId == k
      requires FirstFree(View().maps, 0) < |mapTasks|
      modifies this`runningMapTasks, this`chans
      ensures var t := FirstFree(old(View()).maps, 0);
              && reply == Reply(mapTasks[t].fileName, nReduce, MapTasks, t)
              && monitor == Monitor(MapTasks, t, old(chans))
              && runningMapTasks == old(runningMapTasks)[t := old(chans)] && chans == old(chans) + 1
    {
      var i := FindMap();
      reply := Reply(mapTasks[i].fileName, nReduce, MapTasks, mapTasks[i].taskId);
      var ch := MakeChan();
      runningMapTasks := runningMapTasks[reply.taskId := ch];
      monitor := Monitor(MapTasks, reply.taskId, runningMapTasks[reply.taskId]);
    }

    method AssignReduce() returns (reply: Reply, monitor: Monitor)
      requires forall k :: 0 <= k < |reduceTasks| ==> reduceTasks[k].taskId == k
      requires FirstFree(View().reduces, 0) < |reduceTasks|
      modifies this`runningReduceTasks, this`chans
      ensures var t := FirstFree(old(View()).reduces, 0);
              && reply == Reply("", nReduce, ReduceTasks, t)
              && monitor == Monitor(ReduceTasks, t, old(chans))
              && runningReduceTasks == old(runningReduceTasks)[t := old(chans)] && chans == old(chans) + 1
    {
      var i := FindReduce();
      reply := Reply("", nReduce, ReduceTasks, reduceTasks[i].taskId);
      var ch := MakeChan();
      runningReduceTasks := runningReduceTasks[reply.taskId := ch];
      monitor := Monitor(ReduceTasks, reply.taskId, runningReduceTasks[reply.taskId]);
    }

    method GetTask() returns (reply: Reply, monitor: Option<Monitor>)
      requires Valid()
      modifies this`runningMapTasks, this`runningReduceTasks, this`chans
      ensures (View(), reply, monitor) == Spec.GetTask(old(View()))
      ensures Valid()
    {
      ghost var c := View();
      GetKeepsCoord(c);
      SearchFinds(c.maps);
      SearchFinds(c.reduces);
      reply, monitor := Reply("", 0, Wait, 0), None;
      if |runningMapTasks| > 0 || |mapTasks| > |runningMapTasks| + finishedMapTasks {
        if |mapTasks| > |runningMapTasks| + finishedMapTasks {
          var m;
          reply, m := AssignMap();
          monitor := Some(m);
        }
      } else if |reduceTasks| > |runningReduceTasks| + finishedReduceTasks {
        var m;
        reply, m := AssignReduce();
        monitor := Some(m);
      } else if |runningReduceTasks| == 0 {
        reply := reply.(taskType := AllDone);
      }
      assert (View(), reply, monitor) == Spec.GetTask(c);
    }

    // The lines FinishTask and TaskMonitor share: close the channel of a running assignment,
    // and forget it.
    method EndMap(taskId: nat) returns (ok: bool)
      requires taskId in runningMapTasks ==> runningMapTasks[taskId] !in closed
      modifies this`runningMapTasks, this`closed
      ensures ok == (taskId in old(runningMapTasks))
      ensures ok ==> closed == old(closed) + {old(runningMapTasks)[taskId]}
                     && runningMapTasks == old(runningMapTasks) - {taskId}
      ensures !ok ==> closed == old(closed) && runningMapTasks == old(runningMapTasks)
    {
      ok := taskId in runningMapTasks;
      if ok {
        Close(runningMapTasks[taskId]);
      }
      runningMapTasks := runningMapTasks - {taskId};
    }

    method EndReduce(taskId: nat) returns (ok: bool)
      requires taskId in runningReduceTasks ==> runningReduceTasks[taskId] !in closed
      modifies this`runningReduceTasks, this`closed
      ensures ok == (taskId in old(runningReduceTasks))
      ensures ok ==> closed == old(closed) + {old(runningReduceTasks)[taskId]}
                     && runningReduceTasks == old(runningReduceTasks) - {taskId}
      ensures !ok ==> closed == old(closed) && runningReduceTasks == old(runningReduceTasks)
    {
      ok := taskId in runningReduceTasks;
      if ok {
        Close(runningReduceTasks[taskId]);
      }
      runningReduceTasks := runningReduceTasks - {taskId};
    }

    // The two cases of FinishTask.
    method FinishMap(taskId: nat)
      requires taskId in runningMapTasks ==> runningMapTasks[taskId] !in closed && taskId < |mapTasks|
      modifies this`runningMapTasks, this`closed, this`finishedMapTasks, this`mapTasks
      ensures View() == var c := old(View());
                        if taskId in c.maps.running then
                          c.(maps := Complete(c.maps, taskId), closed := c.closed + {c.maps.running[taskId]})
                        else c
      ensures |mapTasks| == |old(mapTasks)|
      ensures forall i :: 0 <= i < |mapTasks| ==> mapTasks[i].taskId == old(mapTasks)[i].taskId
    {
      var ok := EndMap(taskId);
      if ok {
        finishedMapTasks := finishedMapTasks + 1;
        mapTasks := mapTasks[taskId := mapTasks[taskId].(done := true)];
      }
      assert MapFlags(mapTasks) == if ok then MapFlags(old(mapTasks))[taskId := true] else MapFlags(old(mapTasks));
      assert Names(mapTasks) == Names(old(mapTasks));
    }

    method FinishReduce(taskId: nat)
      requires taskId in runningReduceTasks ==> runningReduceTasks[taskId] !in closed && taskId < |reduceTasks|
      modifies this`runningReduceTasks, this`closed, this`finishedReduceTasks, this`reduceTasks
      ensures View() == var c := old(View());
                        if taskId in c.reduces.running then
                          c.(reduces := Complete(c.reduces, taskId), closed := c.closed + {c.reduces.running[taskId]})
                        else c
      ensures |reduceTasks| == |old(reduceTasks)|
      ensures forall i :: 0 <= i < |reduceTasks| ==> reduceTasks[i].taskId == old(reduceTasks)[i].taskId
    {
      var ok := EndReduce(taskId);
      if ok {
        finishedReduceTasks := finishedReduceTasks + 1;
        reduceTasks := reduceTasks[taskId := reduceTasks[taskId].(done := true)];
      }
      assert ReduceFlags(reduceTasks) ==
          if ok then ReduceFlags(old(reduceTasks))[taskId := true] else ReduceFlags(old(reduceTasks));
    }

    method FinishTask(taskType: TaskType, taskId: nat)
      requires Valid()
      modifies this
      ensures View() == Spec.FinishTask(old(View()), taskType, taskId)
      ensures Valid() && FinishEffect(old(View()), taskType, taskId, View())
    {
      ghost var c := View();
      FinishKeepsCoord(c, taskType, taskId);
      FinishHasEffect(c, taskType, taskId);
      match taskType {
        case MapTasks => FinishMap(taskId);
        case ReduceTasks => FinishReduce(taskId);
        case _ =>
      }
      assert View() == Spec.FinishTask(c, taskType, taskId);
    }

    // TaskMonitor, when its timer fires.
    method TimeOut(m: Monitor)
      requires Valid()
      modifies this`runningMapTasks, this`runningReduceTasks, this`closed
      ensures View() == Spec.TimeOut(old(View()), m)
      ensures Valid() && TimeOutEffect(old(View()), m, View())
    {
      ghost var c := View();
      TimeOutKeepsCoord(c, m);
      TimeOutHasEffect(c, m);
      match m.taskType {
        case MapTasks =>
          var _ := EndMap(m.taskId);
        case ReduceTasks =>
          var _ := EndReduce(m.taskId);
        case _ =>
      }
      assert View() == Spec.TimeOut(c, m);
    }

    method Done() returns (ret: bool)
      requires Valid()
      ensures ret <==> Spec.Done(View())
      ensures ret <==> (forall i :: 0 <= i < |mapTasks| ==> mapTasks[i].done)
                       && (forall i :: 0 <= i < |reduceTasks| ==> reduceTasks[i].done)
    {
      ghost var c := View();
      CountFull(c.maps.done);
      CountFull(c.reduces.done);
      assert forall i :: 0 <= i < |mapTasks| ==> c.maps.done[i] == mapTasks[i].done;
      assert forall i :: 0 <= i < |reduceTasks| ==> c.reduces.done[i] == reduceTasks[i].done;
      ret := false;
      if finishedMapTasks == |mapTasks| && finishedReduceTasks == |reduceTasks| {
        ret := true;
      }
    }
  }
}
