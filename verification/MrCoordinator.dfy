/** The MapReduce coordinator as a state machine: every step is what one goroutine does under a
    lock or at a rendezvous. Workers may be slow, die, or report late. */
module MrCoordinator {
  import opened MrFiles
  import L = Linearizability

  datatype Kind = Map | Reduce

  /** A map task is the input it reads; a reduce task its bucket and the files to read. */
  datatype Task = MapTask(input: nat) | ReduceTask(bucket: nat, files: seq<string>)

  function KindOf(t: Task): Kind { if t.MapTask? then Map else Reduce }

  /** Where an attempt is: taken off the queue, watched by its monitor, given up and on its way
      back to the queue, reported to the monitor, released by it, and over. */
  datatype Stage = Taken | Watched | Requeueing | Signalled | Released | Gone

  datatype Attempt = Attempt(task: Task, stage: Stage, reported: bool)

  /** One kind's queue and wait group; finished records the tasks whose wait is over. */
  datatype Side = Side(queue: seq<Task>, count: int, finished: set<Task>)

  datatype Phase = Mapping | Reducing(groups: map<nat, seq<string>>, todo: set<nat>) | Ended(groups: map<nat, seq<string>>)

  /** A report that was not turned away, with the order in which it lists its buckets. */
  datatype Report = Report(id: nat, order: seq<nat>)

  /** accepted and late record what happened; no step reads them. */
  datatype World = World(
    inputs: nat, nReduce: nat, maps: Side, reduces: Side, currentID: nat, attempts: map<nat, Attempt>,
    isTimeout: set<nat>, doneC: set<nat>, mapFiles: seq<string>, phase: Phase, accepted: seq<Report>, late: set<nat>)

  function SideOf(w: World, k: Kind): Side { if k.Map? then w.maps else w.reduces }

  function WithSide(w: World, k: Kind, side: Side): World {
    if k.Map? then w.(maps := side) else w.(reduces := side)
  }

  function Init(inputs: nat, nReduce: nat): World {
    World(inputs, nReduce, Side(seq(inputs, i requires 0 <= i < inputs => MapTask(inputs - 1 - i)), inputs, {}), Side([], 0, {}),
          0, map[], {}, {}, [], Mapping, [], {})
  }

  datatype Step =
    | Take(kind: Kind)
    | Watch(id: nat)
    | Expire(id: nat)
    | Requeue(id: nat)
    | Done(id: nat, order: seq<nat>)
    | ExpireLate(id: nat)
    | Release(id: nat)
    | Finish(id: nat)
    | StartReduce(groups: map<nat, seq<string>>)
    | AddReduce(bucket: nat)
    | End

  /** The buckets 0, ..., n-1 in some order. */
  predicate IsOrder(order: seq<nat>, n: nat) {
    && |order| == n && (forall i :: 0 <= i < n ==> order[i] < n)
    && forall i, j :: 0 <= i < j < n ==> order[i] != order[j]
  }

  function NamesOf(id: nat, order: seq<nat>): seq<string> {
    seq(|order|, i requires 0 <= i < |order| => FileName(id, order[i]))
  }

  ghost predicate Enabled(w: World, step: Step) {
    match step
    case Take(k) => SideOf(w, k).queue != [] && (k.Reduce? ==> w.maps.queue == [])
    case Watch(id) => At(w, id, Taken)
    case Expire(id) => At(w, id, Watched)
    case Requeue(id) => At(w, id, Requeueing)
    case Done(id, order) =>
      && id in w.attempts && !w.attempts[id].reported && !w.attempts[id].stage.Taken? && IsOrder(order, w.nReduce)
      && (id in w.isTimeout || w.attempts[id].stage.Watched?)     // the monitor is listening
    case ExpireLate(id) => At(w, id, Signalled)
    case Release(id) => At(w, id, Signalled)
    case Finish(id) => At(w, id, Released)
    case StartReduce(groups) => w.phase.Mapping? && w.maps.count == 0 && Grouped(groups, w.mapFiles, |w.mapFiles|)
    case AddReduce(b) => w.phase.Reducing? && b in w.phase.todo
    case End => w.phase.Reducing? && w.phase.todo == {} && w.reduces.count == 0
  }

  predicate At(w: World, id: nat, stage: Stage) {
    id in w.attempts && w.attempts[id].stage == stage
  }

  function Restage(w: World, id: nat, stage: Stage): World
    requires id in w.attempts
  {
    w.(attempts := w.attempts[id := w.attempts[id].(stage := stage)])
  }

  /** What a worker's report does: one for an attempt that was given up is turned away. */
  function Reported(w: World, id: nat, order: seq<nat>): World
    requires id in w.attempts
  {
    var a := w.attempts[id];
    if id in w.isTimeout then
      w.(isTimeout := w.isTimeout - {id}, doneC := w.doneC - {id}, attempts := w.attempts[id := a.(reported := true)])
    else
      w.(mapFiles := w.mapFiles + if a.task.MapTask? then NamesOf(id, order) else [],
         attempts := w.attempts[id := Attempt(a.task, Signalled, true)], accepted := w.accepted + [Report(id, order)])
  }

  ghost function Next(w: World, step: Step): World
    requires Enabled(w, step)
  {
    match step
    case Take(k) =>
      var side := SideOf(w, k);
      WithSide(w, k, side.(queue := side.queue[1..])).(
        currentID := w.currentID + 1, attempts := w.attempts[w.currentID + 1 := Attempt(side.queue[0], Taken, false)])
    case Watch(id) => Restage(w, id, Watched).(doneC := w.doneC + {id})
    case Expire(id) => Restage(w, id, Requeueing).(isTimeout := w.isTimeout + {id})
    case Requeue(id) =>
      var t := w.attempts[id].task;
      var side := SideOf(w, KindOf(t));
      WithSide(Restage(w, id, Gone), KindOf(t), side.(queue := [t] + side.queue))
    case Done(id, order) => Reported(w, id, order)
    case ExpireLate(id) => Restage(w, id, Requeueing).(isTimeout := w.isTimeout + {id}, late := w.late + {id})
    case Release(id) => Restage(w, id, Released).(doneC := w.doneC - {id})
    case Finish(id) =>
      var t := w.attempts[id].task;
      var side := SideOf(w, KindOf(t));
      WithSide(Restage(w, id, Gone), KindOf(t), side.(count := side.count - 1, finished := side.finished + {t}))
    case StartReduce(groups) => w.(phase := Reducing(groups, L.Iota(w.nReduce)))
    case AddReduce(b) =>
      w.(phase := Reducing(w.phase.groups, w.phase.todo - {b}),
         reduces := w.reduces.(queue := [ReduceTask(b, Files(w.phase.groups, b))] + w.reduces.queue, count := w.reduces.count + 1))
    case End => w.(phase := Ended(w.phase.groups))
  }

  ghost predicate Follows(v: World, w: World) {
    exists step :: Enabled(v, step) && w == Next(v, step)
  }

  ghost predicate IsRun(inputs: nat, nReduce: nat, run: seq<World>) {
    && |run| > 0 && run[0] == Init(inputs, nReduce)
    && forall k, l :: 0 <= k && l == k + 1 && l < |run| ==> Follows(run[k], run[l])
  }
}
