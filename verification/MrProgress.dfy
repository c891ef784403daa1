/** Every job can be finished: for any inputs and any number of buckets there is a run in which
    nothing is given up and the coordinator is done. */
module MrProgress {
  import opened MrFiles
  import opened MrCoordinator
  import opened MrBarrier
  import L = Linearizability

  ghost predicate Reached(inputs: nat, nReduce: nat, w: World) {
    exists run :: IsRun(inputs, nReduce, run) && run[|run| - 1] == w
  }

  lemma Extend(inputs: nat, nReduce: nat, w: World, step: Step)
    requires Reached(inputs, nReduce, w) && Enabled(w, step)
    ensures Reached(inputs, nReduce, Next(w, step))
  {
    hide Enabled, Next;
    var run :| IsRun(inputs, nReduce, run) && run[|run| - 1] == w;
    var more := run + [Next(w, step)];
    assert Follows(w, Next(w, step));
    forall k, l | 0 <= k && l == k + 1 && l < |more| ensures Follows(more[k], more[l]) {
      if l < |run| { assert Follows(run[k], run[l]); }
    }
    assert IsRun(inputs, nReduce, more);
  }

  function Natural(n: nat): (order: seq<nat>)
    ensures IsOrder(order, n)
  {
    seq(n, i => i)
  }

  /** Nothing has been given up, and new attempts get new numbers. */
  ghost predicate Calm(w: World) {
    w.late == {} && w.isTimeout == {} && forall id :: id in w.attempts ==> id <= w.currentID
  }

  /** The first task of the kind has been taken, done and finished, and nothing else happened. */
  ghost predicate OneDone(w: World, d: World, k: Kind) {
    && SideOf(w, k).queue != [] && Calm(d) && d.phase == w.phase && d.nReduce == w.nReduce
    && SideOf(d, k).queue == SideOf(w, k).queue[1..] && SideOf(d, k).count == SideOf(w, k).count - 1
    && forall j :: j != k ==> SideOf(d, j) == SideOf(w, j)
  }

  /** The attempt is at the stage; the rest is as before it was taken. */
  ghost predicate Under(w: World, d: World, k: Kind, stage: Stage, reported: bool) {
    && SideOf(w, k).queue != [] && Calm(d) && d.phase == w.phase && d.nReduce == w.nReduce && d.currentID == w.currentID + 1
    && d.currentID in d.attempts && d.attempts[d.currentID] == Attempt(SideOf(w, k).queue[0], stage, reported)
    && SideOf(d, k) == SideOf(w, k).(queue := SideOf(w, k).queue[1..])
    && forall j :: j != k ==> SideOf(d, j) == SideOf(w, j)
  }

  ghost predicate Ready(w: World, k: Kind) {
    && Calm(w) && SideOf(w, k).queue != [] && KindOf(SideOf(w, k).queue[0]) == k && (k.Reduce? ==> w.maps.queue == [])
  }

  lemma Begins(inputs: nat, nReduce: nat, w: World, k: Kind) returns (d: World)
    requires Reached(inputs, nReduce, w) && Ready(w, k)
    ensures Reached(inputs, nReduce, d) && Under(w, d, k, Watched, false)
  {
    hide Reached;
    var taken := Next(w, Take(k));
    Extend(inputs, nReduce, w, Take(k));
    assert Under(w, taken, k, Taken, false);
    d := Next(taken, Watch(taken.currentID));
    Extend(inputs, nReduce, taken, Watch(taken.currentID));
  }

  lemma Reports(inputs: nat, nReduce: nat, w: World, c: World, k: Kind) returns (d: World)
    requires Reached(inputs, nReduce, c) && Ready(w, k) && Under(w, c, k, Watched, false)
    ensures Reached(inputs, nReduce, d) && Under(w, d, k, Released, true)
  {
    hide Reached, NamesOf;
    var id := c.currentID;
    var told := Next(c, Done(id, Natural(c.nReduce)));
    Extend(inputs, nReduce, c, Done(id, Natural(c.nReduce)));
    assert Under(w, told, k, Signalled, true);
    d := Next(told, Release(id));
    Extend(inputs, nReduce, told, Release(id));
  }

  lemma DoesOne(inputs: nat, nReduce: nat, w: World, k: Kind) returns (d: World)
    requires Reached(inputs, nReduce, w) && Ready(w, k)
    ensures Reached(inputs, nReduce, d) && OneDone(w, d, k)
  {
    hide Reached;
    var begun := Begins(inputs, nReduce, w, k);
    var told := Reports(inputs, nReduce, w, begun, k);
    d := Next(told, Finish(told.currentID));
    Extend(inputs, nReduce, told, Finish(told.currentID));
  }

  ghost predicate AllOf(queue: seq<Task>, k: Kind) {
    forall i :: 0 <= i < |queue| ==> KindOf(queue[i]) == k
  }

  lemma {:induction false} DoesAll(inputs: nat, nReduce: nat, w: World, k: Kind) returns (d: World)
    requires Reached(inputs, nReduce, w) && Calm(w) && AllOf(SideOf(w, k).queue, k) && (k.Reduce? ==> w.maps.queue == [])
    requires SideOf(w, k).count == |SideOf(w, k).queue|
    ensures Reached(inputs, nReduce, d) && Calm(d) && d.phase == w.phase && d.nReduce == w.nReduce
    ensures SideOf(d, k).queue == [] && SideOf(d, k).count == 0 && forall j :: j != k ==> SideOf(d, j) == SideOf(w, j)
    decreases |SideOf(w, k).queue|
  {
    hide Reached, Calm;
    d := w;
    if SideOf(w, k).queue != [] {
      var c := DoesOne(inputs, nReduce, w, k);
      assert k.Reduce? ==> SideOf(c, Map) == SideOf(w, Map);
      d := DoesAll(inputs, nReduce, c, k);
    }
  }

  lemma {:induction false} GroupsExist(files: seq<string>, n: nat) returns (groups: map<nat, seq<string>>)
    requires n <= |files|
    ensures Grouped(groups, files, n)
  {
    hide Destination;
    groups := map[];
    if n > 0 {
      groups := GroupsExist(files, n - 1);
      var b := Destination(files, n - 1);
      GroupedNext(groups, files, n - 1, b);
      groups := groups[b := Files(groups, b) + [files[n - 1]]];
    }
  }

  /** Reduce tasks are being made; none has been taken yet. */
  ghost predicate Making(w: World) {
    && Calm(w) && w.phase.Reducing? && w.maps.queue == []
    && w.reduces.count == |w.reduces.queue| && AllOf(w.reduces.queue, Reduce)
  }

  lemma {:induction false} MakesAll(inputs: nat, nReduce: nat, w: World) returns (d: World)
    requires Reached(inputs, nReduce, w) && Making(w)
    ensures Reached(inputs, nReduce, d) && Making(d) && d.phase.todo == {}
    decreases w.phase.todo
  {
    hide Reached, Files;
    d := w;
    if w.phase.todo != {} {
      var b :| b in w.phase.todo;
      var c := Next(w, AddReduce(b));
      Extend(inputs, nReduce, w, AddReduce(b));
      d := MakesAll(inputs, nReduce, c);
    }
  }

  lemma MapsAll(inputs: nat, nReduce: nat) returns (d: World)
    ensures Reached(inputs, nReduce, d) && Calm(d) && d.phase.Mapping? && d.maps.queue == [] && d.maps.count == 0 && d.reduces == Side([], 0, {})
  {
    var start := Init(inputs, nReduce);
    assert IsRun(inputs, nReduce, [start]) && [start][0] == start;
    hide Reached;
    d := DoesAll(inputs, nReduce, start, Map);
    assert SideOf(d, Reduce) == SideOf(start, Reduce);
  }

  /** There is a run to the very end in which no report is given up. */
  lemma JobCanFinish(inputs: nat, nReduce: nat) returns (w: World)
    ensures Reached(inputs, nReduce, w) && w.phase.Ended? && w.late == {}
  {
    hide Reached;
    var mapped := MapsAll(inputs, nReduce);
    var groups := GroupsExist(mapped.mapFiles, |mapped.mapFiles|);
    hide Grouped;
    var started := Next(mapped, StartReduce(groups));
    Extend(inputs, nReduce, mapped, StartReduce(groups));
    var made := MakesAll(inputs, nReduce, started);
    var reduced := DoesAll(inputs, nReduce, made, Reduce);
    w := Next(reduced, End);
    Extend(inputs, nReduce, reduced, End);
  }

  /** A watched attempt can always be given up: its task goes back to the front of its queue, and
      its own report, should it still come, adds nothing. */
  lemma GivenUpIsRetried(w: World, id: nat, order: seq<nat>)
    requires At(w, id, Watched) && !w.attempts[id].reported && IsOrder(order, w.nReduce)
    ensures Enabled(w, Expire(id)) && Enabled(Next(w, Expire(id)), Requeue(id))
    ensures var (t, d) := (w.attempts[id].task, Next(Next(w, Expire(id)), Requeue(id)));
      && SideOf(d, KindOf(t)).queue == [t] + SideOf(w, KindOf(t)).queue && SideOf(d, KindOf(t)).count == SideOf(w, KindOf(t)).count
      && Enabled(d, Done(id, order)) && Next(d, Done(id, order)).mapFiles == w.mapFiles
      && Next(d, Done(id, order)).accepted == w.accepted
  {
  }
}
