/** No task is lost or doubled: each is in exactly one place until it is finished, the wait
    groups count exactly the unfinished ones, and reducing starts only when no map task is left. */
module MrBarrier {
  import opened MrFiles
  import opened MrCoordinator
  import L = Linearizability

  ghost predicate Live(w: World, id: nat) {
    id in w.attempts && !w.attempts[id].stage.Gone?
  }

  ghost function LiveIds(w: World, k: Kind): set<nat> {
    set id | id in w.attempts && Live(w, id) && KindOf(w.attempts[id].task) == k
  }

  /** Some attempt is under way with the task. */
  ghost predicate UnderWay(w: World, t: Task) {
    exists id :: Live(w, id) && w.attempts[id].task == t
  }

  /** The tasks there are: one for each input, and one for each bucket already turned into one. */
  ghost predicate Issued(w: World, t: Task) {
    match t
    case MapTask(i) => i < w.inputs
    case ReduceTask(b, files) =>
      match w.phase
      case Mapping => false
      case Reducing(groups, todo) => b < w.nReduce && b !in todo && files == Files(groups, b)
      case Ended(groups) => b < w.nReduce && files == Files(groups, b)
  }

  ghost predicate Queued(w: World, t: Task) { t in SideOf(w, KindOf(t)).queue }

  ghost predicate IsFinished(w: World, t: Task) { t in SideOf(w, KindOf(t)).finished }

  /** Every task is queued, under way or finished, and only one of these. */
  ghost predicate OnePlace(w: World, t: Task) {
    && (Issued(w, t) <==> Queued(w, t) || UnderWay(w, t) || IsFinished(w, t))
    && !(Queued(w, t) && UnderWay(w, t)) && !(Queued(w, t) && IsFinished(w, t)) && !(UnderWay(w, t) && IsFinished(w, t))
  }

  ghost predicate Single(w: World, id: nat, other: nat) {
    Live(w, id) && Live(w, other) && w.attempts[id].task == w.attempts[other].task ==> id == other
  }

  ghost predicate SideOk(w: World, k: Kind) {
    var side := SideOf(w, k);
    && L.Distinct(side.queue) && (forall i :: 0 <= i < |side.queue| ==> KindOf(side.queue[i]) == k)
    && side.count == |side.queue| + |LiveIds(w, k)|
  }

  /** The report that counts for a task: accepted, and not given up afterwards. */
  ghost predicate Keeps(w: World, j: nat) {
    j < |w.accepted| && w.accepted[j].id !in w.late
  }

  ghost predicate AcceptedOk(w: World, j: nat)
    requires j < |w.accepted|
  {
    var id := w.accepted[j].id;
    && id in w.attempts && w.attempts[id].reported && IsOrder(w.accepted[j].order, w.nReduce)
    && var a := w.attempts[id];
       if id in w.late then a.stage.Requeueing? || a.stage.Gone?
       else a.stage.Signalled? || a.stage.Released? || (a.stage.Gone? && IsFinished(w, a.task))
  }

  ghost function TaskOf(w: World, j: nat): Task
    requires j < |w.accepted| && AcceptedOk(w, j)
  {
    w.attempts[w.accepted[j].id].task
  }

  /** Reports are of different attempts, and those that count of different tasks. */
  ghost predicate ReportsApart(w: World) {
    forall i, j :: 0 <= i < j < |w.accepted| ==>
      && w.accepted[i].id != w.accepted[j].id
      && (AcceptedOk(w, i) && AcceptedOk(w, j) && Keeps(w, i) && Keeps(w, j) ==> TaskOf(w, i) != TaskOf(w, j))
  }

  /** The task has a report that counts. */
  ghost predicate Reported1(w: World, t: Task) {
    exists j :: Keeps(w, j) && AcceptedOk(w, j) && TaskOf(w, j) == t
  }

  ghost predicate AttemptOk(w: World, id: nat)
    requires id in w.attempts
  {
    var a := w.attempts[id];
    && id <= w.currentID
    && (a.stage.Taken? || a.stage.Watched? ==> !a.reported && id !in w.isTimeout && id !in w.late)
    && (a.stage.Signalled? || a.stage.Released? ==> Reported1(w, a.task))
  }

  /** What the accepted map reports list, one after the other. */
  ghost function Listed(w: World, n: nat): seq<string>
    requires n <= |w.accepted|
  {
    if n == 0 then []
    else
      var r := w.accepted[n - 1];
      Listed(w, n - 1) + if r.id in w.attempts && w.attempts[r.id].task.MapTask? then NamesOf(r.id, r.order) else []
  }

  ghost predicate PhaseOk(w: World) {
    && (w.phase.Reducing? ==> w.phase.todo <= L.Iota(w.nReduce))
    && (!w.phase.Mapping? ==> w.maps.count == 0 && Grouped(w.phase.groups, w.mapFiles, |w.mapFiles|))
    && (w.phase.Ended? ==> w.reduces.count == 0)
  }

  ghost predicate PlacesOk(w: World) {
    && SideOk(w, Map) && SideOk(w, Reduce)
    && (forall t :: OnePlace(w, t)) && (forall i, j :: Single(w, i, j))
  }

  ghost predicate ReportsOk(w: World) {
    && (forall j: nat :: j < |w.accepted| ==> AcceptedOk(w, j)) && ReportsApart(w)
    && (forall id :: id in w.attempts ==> AttemptOk(w, id))
    && (forall t :: IsFinished(w, t) ==> Reported1(w, t))
    && w.mapFiles == Listed(w, |w.accepted|) && w.isTimeout + w.late <= w.attempts.Keys
  }

  ghost predicate Inv(w: World) {
    PlacesOk(w) && ReportsOk(w) && PhaseOk(w) && AllIssued(w)
  }

  /** Every attempt ever made is at a task there is. */
  ghost predicate AllIssued(w: World) {
    forall id :: id in w.attempts ==> Issued(w, w.attempts[id].task)
  }

  // ---- places: steps that move an attempt along

  /** Neither the queues nor who is under way with what has changed. */
  ghost predicate SamePlaces(w: World, d: World) {
    && d.maps == w.maps && d.reduces == w.reduces && d.phase == w.phase && d.inputs == w.inputs && d.nReduce == w.nReduce
    && d.attempts.Keys == w.attempts.Keys
    && forall id :: id in w.attempts ==> d.attempts[id].task == w.attempts[id].task && (d.attempts[id].stage.Gone? <==> w.attempts[id].stage.Gone?)
  }

  lemma PlacesKept(w: World, d: World)
    requires PlacesOk(w) && SamePlaces(w, d)
    ensures PlacesOk(d)
  {
    forall id ensures Live(w, id) <==> Live(d, id) { }
    assert LiveIds(w, Map) == LiveIds(d, Map) && LiveIds(w, Reduce) == LiveIds(d, Reduce);
    forall t ensures OnePlace(d, t) {
      assert OnePlace(w, t);
      if UnderWay(w, t) {
        var id :| Live(w, id) && w.attempts[id].task == t;
        assert Live(d, id) && d.attempts[id].task == t;
      }
      if UnderWay(d, t) {
        var id :| Live(d, id) && d.attempts[id].task == t;
        assert Live(w, id) && w.attempts[id].task == t;
      }
    }
    forall i, j ensures Single(d, i, j) { assert Single(w, i, j); }
  }

  // ---- places: a task is taken

  lemma TakenIds(w: World, k: Kind, d: World)
    requires PlacesOk(w) && Enabled(w, Take(k)) && d == Next(w, Take(k)) && w.currentID + 1 !in w.attempts
    ensures var t := SideOf(w, k).queue[0];
      && (forall id :: Live(d, id) <==> Live(w, id) || id == w.currentID + 1)
      && KindOf(t) == k && LiveIds(d, k) == LiveIds(w, k) + {w.currentID + 1}
      && (forall j :: j != k ==> LiveIds(d, j) == LiveIds(w, j))
  {
    hide OnePlace, Single, L.Distinct;
    assert SideOk(w, k);
    forall id ensures Live(d, id) <==> Live(w, id) || id == w.currentID + 1 { }
  }

  lemma TakenUnderWay(w: World, k: Kind, d: World, u: Task)
    requires Enabled(w, Take(k)) && d == Next(w, Take(k)) && w.currentID + 1 !in w.attempts
    ensures UnderWay(d, u) <==> UnderWay(w, u) || u == SideOf(w, k).queue[0]
  {
    if UnderWay(w, u) {
      var id :| Live(w, id) && w.attempts[id].task == u;
      assert Live(d, id) && d.attempts[id].task == u;
    }
    if UnderWay(d, u) {
      var id :| Live(d, id) && d.attempts[id].task == u;
      if id != w.currentID + 1 { assert Live(w, id) && w.attempts[id].task == u; }
    }
    assert Live(d, w.currentID + 1);
  }

  lemma TakePlace(w: World, k: Kind, d: World, u: Task)
    requires PlacesOk(w) && Enabled(w, Take(k)) && d == Next(w, Take(k)) && w.currentID + 1 !in w.attempts
    ensures OnePlace(d, u)
  {
    TakenUnderWay(w, k, d, u);
    assert OnePlace(w, u) && SideOk(w, k);
    var q := SideOf(w, k).queue;
    assert q == [q[0]] + q[1..];
    assert u in q <==> u == q[0] || u in q[1..];
    assert q[0] !in q[1..];
    hide UnderWay, LiveIds;
  }

  lemma TakeSingle(w: World, k: Kind, d: World, i: nat, j: nat)
    requires PlacesOk(w) && Enabled(w, Take(k)) && d == Next(w, Take(k)) && w.currentID + 1 !in w.attempts
    ensures Single(d, i, j)
  {
    var t := SideOf(w, k).queue[0];
    assert Single(w, i, j) && SideOk(w, k) && OnePlace(w, t);
    assert Queued(w, t);
    hide OnePlace, LiveIds;
    forall id | Live(w, id) ensures w.attempts[id].task != t { NotTaken(w, t, id); }
  }

  lemma NotTaken(w: World, t: Task, id: nat)
    requires OnePlace(w, t) && Queued(w, t) && Live(w, id)
    ensures w.attempts[id].task != t
  {
  }

  lemma TakePlaces(w: World, k: Kind)
    requires PlacesOk(w) && Enabled(w, Take(k)) && w.currentID + 1 !in w.attempts
    ensures PlacesOk(Next(w, Take(k)))
  {
    var d := Next(w, Take(k));
    TakenIds(w, k, d);
    forall u ensures OnePlace(d, u) { TakePlace(w, k, d, u); }
    forall i, j ensures Single(d, i, j) { TakeSingle(w, k, d, i, j); }
    hide OnePlace, Single, Live;
    assert w.currentID + 1 !in LiveIds(w, k);
    hide LiveIds;
    assert SideOk(w, Map) && SideOk(w, Reduce);
  }

  // ---- places: an attempt is over, its task queued again or finished

  ghost predicate Leaves(w: World, step: Step) {
    Enabled(w, step) && (step.Requeue? || step.Finish?)
  }

  lemma LeftIds(w: World, step: Step, d: World)
    requires PlacesOk(w) && Leaves(w, step) && d == Next(w, step)
    ensures var k := KindOf(w.attempts[step.id].task);
      && (forall id :: Live(d, id) <==> Live(w, id) && id != step.id)
      && step.id in LiveIds(w, k) && LiveIds(d, k) == LiveIds(w, k) - {step.id}
      && (forall j :: j != k ==> LiveIds(d, j) == LiveIds(w, j))
  {
    hide OnePlace, Single, SideOk;
    forall id ensures Live(d, id) <==> Live(w, id) && id != step.id { }
  }

  lemma LeftUnderWay(w: World, step: Step, d: World, u: Task)
    requires PlacesOk(w) && Leaves(w, step) && d == Next(w, step)
    ensures UnderWay(w, w.attempts[step.id].task)
    ensures UnderWay(d, u) <==> UnderWay(w, u) && u != w.attempts[step.id].task
  {
    hide OnePlace, SideOk;
    assert Live(w, step.id);
    if UnderWay(w, u) {
      var id :| Live(w, id) && w.attempts[id].task == u;
      if id != step.id { assert Live(d, id) && d.attempts[id].task == u; assert Single(w, id, step.id); }
    }
    if UnderWay(d, u) {
      var id :| Live(d, id) && d.attempts[id].task == u;
      assert Live(w, id) && w.attempts[id].task == u && Single(w, id, step.id);
    }
  }

  lemma LeavePlace(w: World, step: Step, d: World, u: Task)
    requires PlacesOk(w) && Leaves(w, step) && d == Next(w, step)
    ensures OnePlace(d, u)
  {
    LeftUnderWay(w, step, d, u);
    assert OnePlace(w, u);
    var t := w.attempts[step.id].task;
    var q := SideOf(w, KindOf(t)).queue;
    assert u in [t] + q <==> u == t || u in q;
    hide UnderWay, LiveIds, SideOk, Single;
  }

  lemma LeaveSides(w: World, step: Step, d: World)
    requires PlacesOk(w) && Leaves(w, step) && d == Next(w, step)
    ensures SideOk(d, Map) && SideOk(d, Reduce)
  {
    var t := w.attempts[step.id].task;
    LeftIds(w, step, d);
    assert !Queued(w, t) by { LeftUnderWay(w, step, d, t); assert OnePlace(w, t); }
    hide OnePlace, Single, Live, LiveIds, UnderWay;
    assert SideOk(w, Map) && SideOk(w, Reduce);
  }

  lemma LeavePlaces(w: World, step: Step)
    requires PlacesOk(w) && Leaves(w, step)
    ensures PlacesOk(Next(w, step))
  {
    var d := Next(w, step);
    LeaveSides(w, step, d);
    forall u ensures OnePlace(d, u) { LeavePlace(w, step, d, u); }
    forall i, j ensures Single(d, i, j) {
      assert Single(w, i, j);
      LeftIds(w, step, d);
    }
    hide OnePlace, Single, Live, LiveIds, SideOk;
  }

  // ---- places: reduce tasks come to be

  lemma SameAttempts(w: World, d: World)
    requires w.attempts == d.attempts
    ensures forall id :: Live(w, id) <==> Live(d, id)
    ensures forall t :: UnderWay(w, t) <==> UnderWay(d, t)
    ensures forall k :: LiveIds(w, k) == LiveIds(d, k)
    ensures forall i, j :: Single(w, i, j) <==> Single(d, i, j)
  {
    forall t ensures UnderWay(w, t) <==> UnderWay(d, t) {
      if UnderWay(w, t) { var id :| Live(w, id) && w.attempts[id].task == t; assert Live(d, id); }
      if UnderWay(d, t) { var id :| Live(d, id) && d.attempts[id].task == t; assert Live(w, id); }
    }
  }

  ghost predicate Adds(w: World, d: World, b: nat) {
    PlacesOk(w) && PhaseOk(w) && Enabled(w, AddReduce(b)) && d == Next(w, AddReduce(b))
  }

  lemma AddPlace(w: World, d: World, b: nat, u: Task)
    requires Adds(w, d, b)
    ensures OnePlace(d, u)
  {
    SameAttempts(w, d);
    hide UnderWay, LiveIds, Live, Single, SideOk, Grouped, Files;
    var t := ReduceTask(b, Files(w.phase.groups, b));
    assert OnePlace(w, u) && OnePlace(w, t);
    assert u in [t] + w.reduces.queue <==> u == t || u in w.reduces.queue;
  }

  lemma AddSides(w: World, d: World, b: nat)
    requires Adds(w, d, b)
    ensures SideOk(d, Map) && SideOk(d, Reduce)
  {
    SameAttempts(w, d);
    assert OnePlace(w, ReduceTask(b, Files(w.phase.groups, b)));
    assert SideOk(w, Map) && SideOk(w, Reduce);
    hide UnderWay, LiveIds, Live, Single, Grouped, Files;
  }

  lemma AddPlaces(w: World, b: nat)
    requires PlacesOk(w) && PhaseOk(w) && Enabled(w, AddReduce(b))
    ensures PlacesOk(Next(w, AddReduce(b)))
  {
    var d := Next(w, AddReduce(b));
    AddSides(w, d, b);
    SameAttempts(w, d);
    forall u ensures OnePlace(d, u) { AddPlace(w, d, b, u); }
    hide OnePlace, SideOk, UnderWay, LiveIds, Live, Single, Grouped, Files;
    assert forall i, j :: Single(w, i, j);
  }

  lemma PhasePlaces(w: World, d: World)
    requires PlacesOk(w) && d == w.(phase := d.phase) && forall t :: Issued(w, t) <==> Issued(d, t)
    ensures PlacesOk(d)
  {
    SameAttempts(w, d);
    hide UnderWay, LiveIds, Live, Single, Issued;
    forall u ensures OnePlace(d, u) { assert OnePlace(w, u); }
    assert SideOk(w, Map) && SideOk(w, Reduce);
    assert SideOk(d, Map) && SideOk(d, Reduce);
  }

  /** No task is lost or doubled by any step. */
  lemma PlacesStep(w: World, step: Step)
    requires Inv(w) && Enabled(w, step)
    ensures PlacesOk(Next(w, step))
  {
    hide PlacesOk, ReportsOk;
    var d := Next(w, step);
    match step
    case Take(k) =>
      FreshId(w);
      TakePlaces(w, k);
    case Requeue(_) => LeavePlaces(w, step);
    case Finish(_) => LeavePlaces(w, step);
    case StartReduce(_) => PhasePlaces(w, d);
    case AddReduce(b) => AddPlaces(w, b);
    case End => PhasePlaces(w, d);
    case _ => PlacesKept(w, d);
  }

  lemma FreshId(w: World)
    requires ReportsOk(w)
    ensures w.currentID + 1 !in w.attempts
  {
    hide AcceptedOk, ReportsApart, IsFinished, Reported1;
    forall id | id in w.attempts ensures id <= w.currentID { assert AttemptOk(w, id); }
  }

  // ---- reports

  ghost predicate TasksKept(w: World, d: World) {
    forall id :: id in w.attempts ==> id in d.attempts && d.attempts[id].task == w.attempts[id].task
  }

  lemma {:induction false} ListedKept(w: World, d: World, n: nat)
    requires n <= |w.accepted| <= |d.accepted| && w.accepted == d.accepted[..|w.accepted|] && TasksKept(w, d)
    requires forall j: nat :: j < |w.accepted| ==> AcceptedOk(w, j)
    ensures Listed(w, n) == Listed(d, n)
  {
    if n > 0 {
      ListedKept(w, d, n - 1);
      assert AcceptedOk(w, n - 1);
      assert d.accepted[n - 1] == w.accepted[n - 1];
    }
  }

  /** The step leaves the accepted reports, and which of them count, as they were. */
  ghost predicate SameReports(w: World, d: World) {
    && d.accepted == w.accepted && d.late == w.late && d.mapFiles == w.mapFiles && TasksKept(w, d)
    && d.isTimeout <= d.attempts.Keys
    && forall j: nat :: j < |d.accepted| ==> AcceptedOk(d, j)
  }

  lemma ReportedKept(w: World, d: World, t: Task)
    requires SameReports(w, d) && Reported1(w, t)
    ensures Reported1(d, t)
  {
    var j :| Keeps(w, j) && AcceptedOk(w, j) && TaskOf(w, j) == t;
    assert Keeps(d, j) && AcceptedOk(d, j) && TaskOf(d, j) == t;
  }

  lemma ReportsKept(w: World, d: World)
    requires ReportsOk(w) && SameReports(w, d)
    requires forall id :: id in d.attempts ==> AttemptOk(d, id)
    requires forall t :: IsFinished(d, t) ==> Reported1(d, t)
    ensures ReportsOk(d)
  {
    ListedKept(w, d, |w.accepted|);
    hide IsFinished, Reported1, AttemptOk, Listed;
    forall j: nat | j < |w.accepted| ensures AcceptedOk(w, j) && TaskOf(w, j) == TaskOf(d, j) {
      assert AcceptedOk(w, j) && AcceptedOk(d, j);
    }
    hide AcceptedOk;
  }

  /** An attempt that has not reported is in no accepted report. */
  lemma Unreported(w: World, id: nat, j: nat)
    requires ReportsOk(w) && id in w.attempts && !w.attempts[id].reported && j < |w.accepted|
    ensures w.accepted[j].id != id && AcceptedOk(w, j)
  {
    hide AttemptOk, ReportsApart, Listed, Reported1;
    assert AcceptedOk(w, j);
  }

  lemma TakeReports(w: World, k: Kind)
    requires ReportsOk(w) && Enabled(w, Take(k)) && w.currentID + 1 !in w.attempts
    ensures ReportsOk(Next(w, Take(k)))
  {
    var d := Next(w, Take(k));
    assert SameReports(w, d) by {
      forall j: nat | j < |d.accepted| ensures AcceptedOk(d, j) { assert AcceptedOk(w, j); }
    }
    Carry(w, d, w.currentID + 1);
    ReportsKept(w, d);
  }

  /** Only attempt id changes, to one that owes nothing; nothing else becomes finished. */
  lemma Carry(w: World, d: World, id: nat)
    requires ReportsOk(w) && SameReports(w, d) && d.attempts.Keys == w.attempts.Keys + {id} && w.currentID <= d.currentID
    requires forall x :: x in w.attempts && x != id ==> d.attempts[x] == w.attempts[x] && (x in d.isTimeout ==> x in w.isTimeout)
    requires AttemptOk(d, id) && d.maps.finished == w.maps.finished && d.reduces.finished == w.reduces.finished
    ensures forall x :: x in d.attempts ==> AttemptOk(d, x)
    ensures forall t :: IsFinished(d, t) ==> Reported1(d, t)
  {
    hide AcceptedOk, Listed, ReportsApart;
    forall x | x in d.attempts ensures AttemptOk(d, x) {
      if x != id {
        assert AttemptOk(w, x);
        if Reported1(w, w.attempts[x].task) { ReportedKept(w, d, w.attempts[x].task); }
      }
    }
    forall t | IsFinished(d, t) ensures Reported1(d, t) {
      assert IsFinished(w, t);
      ReportedKept(w, d, t);
    }
  }

  /** Watching, giving up and turning a late report away concern attempts nobody has accepted. */
  lemma UnreportedReports(w: World, step: Step)
    requires ReportsOk(w) && Enabled(w, step)
    requires step.Watch? || step.Expire? || (step.Done? && step.id in w.isTimeout)
    ensures ReportsOk(Next(w, step))
  {
    var d, id := Next(w, step), step.id;
    assert AttemptOk(w, id);
    assert SameReports(w, d) by {
      forall j: nat | j < |d.accepted| ensures AcceptedOk(d, j) { Unreported(w, id, j); }
    }
    assert AttemptOk(d, id) by {
      if Reported1(w, w.attempts[id].task) { ReportedKept(w, d, w.attempts[id].task); }
    }
    Carry(w, d, id);
    ReportsKept(w, d);
  }

  lemma AlongSame(w: World, step: Step)
    requires ReportsOk(w) && Enabled(w, step) && (step.Requeue? || step.Release? || step.Finish?)
    ensures SameReports(w, Next(w, step))
  {
    hide AttemptOk, Listed, ReportsApart, Reported1, IsOrder;
    var d := Next(w, step);
    forall j: nat | j < |d.accepted| ensures AcceptedOk(d, j) { assert AcceptedOk(w, j); }
  }

  lemma AlongReports(w: World, step: Step)
    requires ReportsOk(w) && Enabled(w, step) && (step.Requeue? || step.Release?)
    ensures ReportsOk(Next(w, step))
  {
    hide AcceptedOk, Listed, ReportsApart;
    var d, id := Next(w, step), step.id;
    AlongSame(w, step);
    assert AttemptOk(w, id);
    assert AttemptOk(d, id) by {
      if Reported1(w, w.attempts[id].task) { ReportedKept(w, d, w.attempts[id].task); }
    }
    Carry(w, d, id);
    ReportsKept(w, d);
  }

  lemma FinishReports(w: World, id: nat)
    requires ReportsOk(w) && Enabled(w, Finish(id))
    ensures ReportsOk(Next(w, Finish(id)))
  {
    hide AcceptedOk, Listed, ReportsApart;
    var d := Next(w, Finish(id));
    assert AttemptOk(w, id);
    AlongSame(w, Finish(id));
    forall x | x in d.attempts ensures AttemptOk(d, x) {
      assert AttemptOk(w, x);
      if x != id && Reported1(w, w.attempts[x].task) { ReportedKept(w, d, w.attempts[x].task); }
    }
    forall u | IsFinished(d, u) ensures Reported1(d, u) {
      assert IsFinished(w, u) || u == w.attempts[id].task;
      ReportedKept(w, d, u);
    }
    ReportsKept(w, d);
  }

  lemma QuietReports(w: World, d: World)
    requires ReportsOk(w) && d == w.(phase := d.phase, reduces := d.reduces) && d.reduces.finished == w.reduces.finished
    ensures ReportsOk(d)
  {
    assert SameReports(w, d) by {
      forall j: nat | j < |d.accepted| ensures AcceptedOk(d, j) { assert AcceptedOk(w, j); }
    }
    hide AcceptedOk, Listed, ReportsApart;
    forall x | x in d.attempts ensures AttemptOk(d, x) {
      assert AttemptOk(w, x);
      if Reported1(w, w.attempts[x].task) { ReportedKept(w, d, w.attempts[x].task); }
    }
    forall u | IsFinished(d, u) ensures Reported1(d, u) {
      assert IsFinished(w, u);
      ReportedKept(w, d, u);
    }
    ReportsKept(w, d);
  }

  // ---- a report is accepted

  /** A task under way has no report that counts, unless it is the attempt's own. */
  lemma NoOtherKeeper(w: World, id: nat, j: nat)
    requires PlacesOk(w) && Live(w, id) && j < |w.accepted| && AcceptedOk(w, j) && Keeps(w, j) && w.accepted[j].id != id
    ensures TaskOf(w, j) != w.attempts[id].task
  {
    hide SideOk;
    var other := w.accepted[j].id;
    assert Single(w, id, other) && OnePlace(w, w.attempts[id].task);
    assert UnderWay(w, w.attempts[id].task);
  }

  lemma FinishedIsOver(w: World, id: nat)
    requires PlacesOk(w) && Live(w, id)
    ensures !IsFinished(w, w.attempts[id].task)
  {
    hide SideOk, Single;
    assert OnePlace(w, w.attempts[id].task);
  }

  ghost predicate Accepts1(w: World, d: World, id: nat, order: seq<nat>) {
    && PlacesOk(w) && ReportsOk(w) && Enabled(w, Done(id, order)) && id !in w.isTimeout && d == Next(w, Done(id, order))
  }

  lemma AcceptedAll(w: World, d: World, id: nat, order: seq<nat>, j: nat)
    requires Accepts1(w, d, id, order) && j < |d.accepted|
    ensures AcceptedOk(d, j)
    ensures j < |w.accepted| ==> AcceptedOk(w, j) && w.accepted[j].id != id && TaskOf(w, j) == TaskOf(d, j)
    ensures j == |w.accepted| ==> Keeps(d, j) && TaskOf(d, j) == w.attempts[id].task
  {
    assert AttemptOk(w, id);
    if j < |w.accepted| { Unreported(w, id, j); }
    hide ReportsApart, Listed, PlacesOk, Reported1;
  }

  lemma AcceptReported(w: World, d: World, id: nat, order: seq<nat>, t: Task)
    requires Accepts1(w, d, id, order) && (Reported1(w, t) || t == w.attempts[id].task)
    ensures Reported1(d, t)
  {
    hide PlacesOk, ReportsOk, AcceptedOk;
    if t == w.attempts[id].task {
      AcceptedAll(w, d, id, order, |w.accepted|);
    } else {
      var j :| Keeps(w, j) && AcceptedOk(w, j) && TaskOf(w, j) == t;
      AcceptedAll(w, d, id, order, j);
      assert Keeps(d, j);
    }
  }

  lemma AcceptPair(w: World, d: World, id: nat, order: seq<nat>, i: nat, j: nat)
    requires Accepts1(w, d, id, order) && ReportsApart(w) && PlacesOk(w) && Live(w, id) && |d.accepted| == |w.accepted| + 1
    requires i < j < |d.accepted| && d.accepted[..|w.accepted|] == w.accepted && d.accepted[|w.accepted|].id == id && d.late == w.late
    ensures d.accepted[i].id != d.accepted[j].id
    ensures AcceptedOk(d, i) && AcceptedOk(d, j) && (Keeps(d, i) && Keeps(d, j) ==> TaskOf(d, i) != TaskOf(d, j))
  {
    hide Accepts1, PlacesOk, AcceptedOk, Live;
    AcceptedAll(w, d, id, order, i);
    AcceptedAll(w, d, id, order, j);
    assert d.accepted[i] == w.accepted[i];
    if j == |w.accepted| {
      if Keeps(d, i) { NoOtherKeeper(w, id, i); }
    } else {
      assert d.accepted[j] == w.accepted[j];
    }
  }

  lemma AcceptShape(w: World, d: World, id: nat, order: seq<nat>)
    requires Accepts1(w, d, id, order)
    ensures ReportsApart(w) && Live(w, id) && d.accepted == w.accepted + [Report(id, order)] && d.late == w.late && PlacesOk(w)
  {
    hide PlacesOk, AcceptedOk, AttemptOk, Listed, ReportsApart;
  }

  lemma AcceptApart(w: World, d: World, id: nat, order: seq<nat>)
    requires Accepts1(w, d, id, order)
    ensures ReportsApart(d)
  {
    hide Accepts1, PlacesOk, AcceptedOk, Live, Keeps;
    AcceptShape(w, d, id, order);
    forall i, j | 0 <= i < j < |d.accepted|
      ensures d.accepted[i].id != d.accepted[j].id
      ensures AcceptedOk(d, i) && AcceptedOk(d, j) && Keeps(d, i) && Keeps(d, j) ==> TaskOf(d, i) != TaskOf(d, j)
    {
      AcceptPair(w, d, id, order, i, j);
    }
  }

  lemma AcceptListed(w: World, d: World, id: nat, order: seq<nat>)
    requires Accepts1(w, d, id, order)
    ensures d.mapFiles == Listed(d, |d.accepted|)
  {
    hide PlacesOk, AttemptOk, ReportsApart;
    ListedKept(w, d, |w.accepted|);
  }

  lemma AcceptReports(w: World, d: World, id: nat, order: seq<nat>)
    requires Accepts1(w, d, id, order)
    ensures ReportsOk(d)
  {
    AcceptApart(w, d, id, order);
    AcceptListed(w, d, id, order);
    forall j: nat | j < |d.accepted| ensures AcceptedOk(d, j) { AcceptedAll(w, d, id, order, j); }
    hide PlacesOk, AcceptedOk, ReportsApart, Listed;
    forall x | x in d.attempts ensures AttemptOk(d, x) {
      assert AttemptOk(w, x);
      if x == id || Reported1(w, w.attempts[x].task) { AcceptReported(w, d, id, order, w.attempts[x].task); }
    }
    forall u | IsFinished(d, u) ensures Reported1(d, u) {
      assert IsFinished(w, u);
      AcceptReported(w, d, id, order, u);
    }
  }

  // ---- an accepted report is given up after all

  ghost predicate GivesUp(w: World, d: World, id: nat) {
    PlacesOk(w) && ReportsOk(w) && Enabled(w, ExpireLate(id)) && d == Next(w, ExpireLate(id))
  }

  lemma GivenUpAll(w: World, d: World, id: nat, j: nat)
    requires GivesUp(w, d, id) && j < |d.accepted|
    ensures AcceptedOk(w, j) && AcceptedOk(d, j) && TaskOf(w, j) == TaskOf(d, j)
    ensures Keeps(d, j) <==> Keeps(w, j) && w.accepted[j].id != id
  {
    assert AcceptedOk(w, j);
    hide ReportsApart, Listed, PlacesOk, Reported1, AttemptOk;
  }

  lemma GivenUpReported(w: World, d: World, id: nat, t: Task)
    requires GivesUp(w, d, id) && Reported1(w, t) && t != w.attempts[id].task
    ensures Reported1(d, t)
  {
    hide PlacesOk, ReportsOk;
    var j :| Keeps(w, j) && AcceptedOk(w, j) && TaskOf(w, j) == t;
    GivenUpAll(w, d, id, j);
    assert Keeps(d, j);
  }

  lemma GivenUpApart(w: World, d: World, id: nat)
    requires GivesUp(w, d, id)
    ensures ReportsApart(d) && forall j: nat :: j < |d.accepted| ==> AcceptedOk(d, j)
  {
    assert ReportsApart(w) && d.accepted == w.accepted;
    hide GivesUp, AcceptedOk, Keeps;
    forall j: nat | j < |d.accepted| ensures AcceptedOk(w, j) && AcceptedOk(d, j) && TaskOf(w, j) == TaskOf(d, j) && (Keeps(d, j) ==> Keeps(w, j)) {
      GivenUpAll(w, d, id, j);
    }
  }

  lemma GiveUpReports(w: World, d: World, id: nat)
    requires GivesUp(w, d, id)
    ensures ReportsOk(d)
  {
    assert Live(w, id);
    GivenUpApart(w, d, id);
    hide AcceptedOk, Listed, ReportsApart, IsOrder;
    FinishedIsOver(w, id);
    ListedKept(w, d, |w.accepted|);
    forall x | x in d.attempts ensures AttemptOk(d, x) {
      assert AttemptOk(w, x) && Single(w, x, id);
      if x != id && Live(w, x) && Reported1(w, w.attempts[x].task) { GivenUpReported(w, d, id, w.attempts[x].task); }
    }
    forall u | IsFinished(d, u) ensures Reported1(d, u) {
      assert IsFinished(w, u);
      GivenUpReported(w, d, id, u);
    }
  }

  lemma ReportsStep(w: World, step: Step)
    requires Inv(w) && Enabled(w, step)
    ensures ReportsOk(Next(w, step))
  {
    hide PlacesOk, ReportsOk;
    var d := Next(w, step);
    match step
    case Take(k) =>
      FreshId(w);
      TakeReports(w, k);
    case Done(id, order) =>
      if id in w.isTimeout { UnreportedReports(w, step); } else { AcceptReports(w, d, id, order); }
    case ExpireLate(id) => GiveUpReports(w, d, id);
    case Watch(_) => UnreportedReports(w, step);
    case Expire(_) => UnreportedReports(w, step);
    case Requeue(_) => AlongReports(w, step);
    case Release(_) => AlongReports(w, step);
    case Finish(id) => FinishReports(w, id);
    case _ => QuietReports(w, d);
  }

  // ---- phases

  /** When a wait group is down to zero, no task of its kind is queued or under way. */
  lemma CountZero(w: World, k: Kind)
    requires PlacesOk(w) && SideOf(w, k).count == 0
    ensures SideOf(w, k).queue == [] && forall id :: Live(w, id) ==> KindOf(w.attempts[id].task) != k
  {
    hide OnePlace, Single;
    assert SideOk(w, k);
    forall id | Live(w, id) ensures KindOf(w.attempts[id].task) != k {
      assert LiveIds(w, k) == {};
      assert KindOf(w.attempts[id].task) == k ==> id in LiveIds(w, k);
    }
  }

  /** A step of an attempt touches no wait group that is down to zero, nor the files once grouped. */
  lemma AttemptPhase(w: World, id: nat)
    requires PlacesOk(w) && PhaseOk(w) && Live(w, id)
    ensures !w.phase.Mapping? ==> KindOf(w.attempts[id].task) == Reduce
    ensures !w.phase.Ended?
  {
    hide Grouped;
    if !w.phase.Mapping? { CountZero(w, Map); }
    if w.phase.Ended? { CountZero(w, Reduce); }
    hide PlacesOk;
  }

  lemma PhaseStep(w: World, step: Step)
    requires Inv(w) && Enabled(w, step)
    ensures PhaseOk(Next(w, step))
  {
    hide PlacesOk, ReportsOk, Grouped;
    match step
    case Done(id, order) => if id !in w.isTimeout { AttemptPhase(w, id); assert w.mapFiles + [] == w.mapFiles; }
    case Finish(id) => AttemptPhase(w, id);
    case _ =>
  }

  lemma IssuedStep(w: World, step: Step)
    requires Inv(w) && Enabled(w, step)
    ensures AllIssued(Next(w, step))
  {
    if step.Take? {
      var t := SideOf(w, step.kind).queue[0];
      assert SideOk(w, step.kind) && OnePlace(w, t);
      assert Queued(w, t);
    }
    hide PlacesOk, ReportsOk, Grouped;
    var d := Next(w, step);
    forall t | Issued(w, t) ensures Issued(d, t) { }
    hide Issued;
  }

  lemma StepInv(w: World, step: Step)
    requires Inv(w) && Enabled(w, step)
    ensures Inv(Next(w, step)) && Next(w, step).inputs == w.inputs && Next(w, step).nReduce == w.nReduce
  {
    PlacesStep(w, step);
    ReportsStep(w, step);
    PhaseStep(w, step);
    IssuedStep(w, step);
    hide PlacesOk, ReportsOk, PhaseOk, AllIssued;
  }

  lemma InitInv(inputs: nat, nReduce: nat)
    ensures Inv(Init(inputs, nReduce))
  {
    var w := Init(inputs, nReduce);
    assert LiveIds(w, Map) == {} && LiveIds(w, Reduce) == {};
    forall t ensures OnePlace(w, t) {
      if t.MapTask? && t.input < inputs { assert w.maps.queue[inputs - 1 - t.input] == t; }
    }
  }

  lemma {:induction false} RunInv(inputs: nat, nReduce: nat, run: seq<World>, k: nat)
    requires IsRun(inputs, nReduce, run) && k < |run|
    ensures Inv(run[k]) && run[k].inputs == inputs && run[k].nReduce == nReduce
  {
    hide Inv, Next, Enabled;
    if k == 0 {
      InitInv(inputs, nReduce);
    } else {
      RunInv(inputs, nReduce, run, k - 1);
      assert Follows(run[k - 1], run[k]);
      var step :| Enabled(run[k - 1], step) && run[k] == Next(run[k - 1], step);
      StepInv(run[k - 1], step);
    }
  }

  // ---- over whole runs

  /** Conservation: in every state, each wait group counts exactly its kind's queued tasks and
      attempts under way, and every task there is stands in exactly one place. */
  lemma Conservation(inputs: nat, nReduce: nat, run: seq<World>, k: nat, kind: Kind, t: Task)
    requires IsRun(inputs, nReduce, run) && k < |run|
    ensures var w := run[k];
      && SideOf(w, kind).count == |SideOf(w, kind).queue| + |LiveIds(w, kind)|
      && L.Distinct(SideOf(w, kind).queue) && OnePlace(w, t)
      && forall i, j :: Single(w, i, j)
  {
    hide IsRun;
    RunInv(inputs, nReduce, run, k);
    assert SideOk(run[k], kind);
  }

  /** Barrier: once there are reduce tasks no map task is queued or under way, and every input's
      task is finished, by a report that was accepted. */
  lemma Barrier(inputs: nat, nReduce: nat, run: seq<World>, k: nat, i: nat)
    requires IsRun(inputs, nReduce, run) && k < |run| && !run[k].phase.Mapping? && i < inputs
    ensures var w := run[k];
      && w.maps.queue == [] && (forall id :: Live(w, id) ==> w.attempts[id].task.ReduceTask?)
      && MapTask(i) in w.maps.finished && Reported1(w, MapTask(i))
  {
    hide IsRun;
    RunInv(inputs, nReduce, run, k);
    var w := run[k];
    CountZero(w, Map);
    assert OnePlace(w, MapTask(i));
    assert IsFinished(w, MapTask(i));
    hide SideOk, Single, AcceptedOk, ReportsApart, AttemptOk, Listed;
  }

  /** When the coordinator says it is done, every bucket's task is finished too. */
  lemma DoneMeansReduced(inputs: nat, nReduce: nat, run: seq<World>, k: nat, b: nat)
    requires IsRun(inputs, nReduce, run) && k < |run| && run[k].phase.Ended? && b < nReduce
    ensures var w := run[k]; var t := ReduceTask(b, Files(w.phase.groups, b)); t in w.reduces.finished && Reported1(w, t)
  {
    hide IsRun;
    RunInv(inputs, nReduce, run, k);
    var w := run[k];
    var t := ReduceTask(b, Files(w.phase.groups, b));
    CountZero(w, Reduce);
    assert OnePlace(w, t);
    assert IsFinished(w, t);
    hide SideOk, Single, AcceptedOk, ReportsApart, AttemptOk, Listed;
  }

  /** The j-th accepted report is of a map attempt. */
  ghost predicate MapReport(w: World, j: nat) {
    j < |w.accepted| && w.accepted[j].id in w.attempts && w.attempts[w.accepted[j].id].task.MapTask?
  }

  /** No input has two accepted reports. */
  ghost predicate AcceptedOnce(w: World) {
    forall i: nat, j: nat :: i < j && MapReport(w, i) && MapReport(w, j) ==>
      w.attempts[w.accepted[i].id].task != w.attempts[w.accepted[j].id].task
  }

  ghost predicate NoneLate(w: World) {
    forall j: nat :: MapReport(w, j) ==> w.accepted[j].id !in w.late
  }

  /** Once mapping is over, every input has been accepted exactly once if and only if no map
      attempt was given up after its report had been taken. */
  lemma OnceIffNoneLate(inputs: nat, nReduce: nat, run: seq<World>, k: nat)
    requires IsRun(inputs, nReduce, run) && k < |run| && !run[k].phase.Mapping?
    ensures AcceptedOnce(run[k]) <==> NoneLate(run[k])
  {
    var w := run[k];
    RunInv(inputs, nReduce, run, k);
    if NoneLate(w) {
      forall i: nat, j: nat | i < j && MapReport(w, i) && MapReport(w, j) ensures w.attempts[w.accepted[i].id].task != w.attempts[w.accepted[j].id].task {
        assert AcceptedOk(w, i) && AcceptedOk(w, j);
      }
    }
    if AcceptedOnce(w) {
      forall j: nat | MapReport(w, j) ensures w.accepted[j].id !in w.late { OnceNotLate(inputs, nReduce, run, k, j); }
    }
  }

  lemma OnceNotLate(inputs: nat, nReduce: nat, run: seq<World>, k: nat, j: nat)
    requires IsRun(inputs, nReduce, run) && k < |run| && !run[k].phase.Mapping?
    requires AcceptedOnce(run[k]) && MapReport(run[k], j)
    ensures run[k].accepted[j].id !in run[k].late
  {
    hide IsRun;
    var w := run[k];
    RunInv(inputs, nReduce, run, k);
    var t := w.attempts[w.accepted[j].id].task;
    assert AcceptedOk(w, j);
    assert Issued(w, t);
    Barrier(inputs, nReduce, run, k, t.input);
    var m :| Keeps(w, m) && AcceptedOk(w, m) && TaskOf(w, m) == t;
    assert MapReport(w, m);
    assert m == j;
  }
}
