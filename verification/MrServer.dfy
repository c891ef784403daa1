/** The coordinator's handlers as they update its fields in place; each is a step of the state
    machine. */
module MrServer {
  import opened MrFiles
  import opened MrCoordinator

  class Coordinator {
    var mapQueue: seq<Task>
    var reduceQueue: seq<Task>
    var currentID: nat
    var isTimeout: set<nat>
    var doneC: set<nat>
    var mapTempFiles: seq<string>

    /** The fields are those of the world. */
    ghost predicate Matches(w: World)
      reads this
    {
      && mapQueue == w.maps.queue && reduceQueue == w.reduces.queue && currentID == w.currentID
      && isTimeout == w.isTimeout && doneC == w.doneC && mapTempFiles == w.mapFiles
    }

    /** A queue for every input, in the order in which tasks pushed to the front end up. */
    constructor (inputs: nat, ghost nReduce: nat)
      ensures Matches(Init(inputs, nReduce))
      ensures |mapQueue| == inputs && forall k :: 0 <= k < inputs ==> mapQueue[k] == MapTask(inputs - 1 - k)
    {
      var queue := [];
      for i := 0 to inputs
        invariant |queue| == i && forall k :: 0 <= k < i ==> queue[k] == MapTask(i - 1 - k)
      {
        queue := [MapTask(i)] + queue;
      }
      mapQueue, reduceQueue, currentID, isTimeout, doneC, mapTempFiles := queue, [], 0, {}, {}, [];
    }

    /** Map tasks go first; when both queues are empty the worker is sent to sleep. */
    method GetTask(ghost w: World) returns (found: bool, task: Task, id: nat, ghost after: World)
      requires Matches(w)
      modifies this
      ensures Matches(after) && found == (w.maps.queue != [] || w.reduces.queue != [])
      ensures !found ==> after == w
      ensures found ==> var k := FirstKind(w); Enabled(w, Take(k)) && after == Next(w, Take(k)) && At(after, id, Taken) && after.attempts[id].task == task
      ensures found ==> id == old(currentID) + 1 == currentID
      ensures old(mapQueue) != [] ==> task == old(mapQueue)[0] && mapQueue == old(mapQueue)[1..] && reduceQueue == old(reduceQueue)
      ensures found && old(mapQueue) == [] ==> task == old(reduceQueue)[0] && reduceQueue == old(reduceQueue)[1..] && mapQueue == []
    {
      found, task, id, after := false, MapTask(0), 0, w;
      if mapQueue != [] {
        task, mapQueue := mapQueue[0], mapQueue[1..];
        found, after := true, Next(w, Take(Map));
      } else if reduceQueue != [] {
        task, reduceQueue := reduceQueue[0], reduceQueue[1..];
        found, after := true, Next(w, Take(Reduce));
      }
      if found {
        currentID := currentID + 1;
        id := currentID;
      }
    }

    method WatchTask(id: nat, ghost w: World)
      requires Matches(w) && Enabled(w, Watch(id))
      modifies this
      ensures Matches(Next(w, Watch(id)))
    {
      doneC := doneC + {id};
    }

    /** The monitor gives the task up: its report, should it come, will be turned away. */
    method TimeOut(id: nat, ghost w: World)
      requires Matches(w) && Enabled(w, Expire(id))
      modifies this
      ensures Matches(Next(w, Expire(id))) && isTimeout == old(isTimeout) + {id}
    {
      isTimeout := isTimeout + {id};
    }

    method AddTask(task: Task, ghost id: nat, ghost w: World)
      requires Matches(w) && Enabled(w, Requeue(id)) && w.attempts[id].task == task
      modifies this
      ensures Matches(Next(w, Requeue(id)))
      ensures task.MapTask? ==> mapQueue == [task] + old(mapQueue) && reduceQueue == old(reduceQueue)
      ensures task.ReduceTask? ==> reduceQueue == [task] + old(reduceQueue) && mapQueue == old(mapQueue)
    {
      if task.MapTask? {
        mapQueue := [task] + mapQueue;
      } else {
        reduceQueue := [task] + reduceQueue;
      }
    }

    /** signal says whether the attempt's monitor is told. */
    method MapTaskDone(id: nat, files: seq<string>, ghost order: seq<nat>, ghost w: World) returns (signal: bool)
      requires Matches(w) && Enabled(w, Done(id, order)) && w.attempts[id].task.MapTask? && files == NamesOf(id, order)
      modifies this
      ensures Matches(Next(w, Done(id, order))) && signal == (id !in old(isTimeout))
      ensures mapTempFiles == old(mapTempFiles) + if signal then files else []
      ensures !signal ==> isTimeout == old(isTimeout) - {id} && doneC == old(doneC) - {id}
    {
      if id in isTimeout {
        isTimeout, doneC := isTimeout - {id}, doneC - {id};
        return false;
      }
      mapTempFiles := mapTempFiles + files;
      return true;
    }

    method ReleaseDoneTask(id: nat, ghost w: World)
      requires Matches(w) && Enabled(w, Release(id))
      modifies this
      ensures Matches(Next(w, Release(id)))
    {
      doneC := doneC - {id};
    }
  }

  function FirstKind(w: World): Kind { if w.maps.queue != [] then Map else Reduce }
}
