/** A whole MapReduce job: what the coordinator hands to the reduce tasks is what the sequential
    program would have sorted. */
module MrJob {
  import opened MrFiles
  import opened MrCoordinator
  import opened MrBarrier
  import opened MrData
  import L = Linearizability


  // ---- exactly once fails when a report is given up

  /** A coordinator with one input and one bucket, somewhere along the run below. */
  function Tiny(queue: seq<Task>, last: nat, attempts: map<nat, Attempt>, timeouts: set<nat>, dones: set<nat>,
                files: seq<string>, accepted: seq<Report>, late: set<nat>): World
  {
    World(1, 1, Side(queue, 1, {}), Side([], 0, {}), last, attempts, timeouts, dones, files, Mapping, accepted, late)
  }

  function First(stage: Stage, reported: bool): map<nat, Attempt> { map[1 := Attempt(MapTask(0), stage, reported)] }

  function Second(stage: Stage, reported: bool): map<nat, Attempt> { First(Gone, true)[2 := Attempt(MapTask(0), stage, reported)] }

  const ONE := Report(1, [0])

  const TWO := Report(2, [0])

  lemma FirstAttempt()
    ensures Follows(Init(1, 1), Tiny([], 1, First(Taken, false), {}, {}, [], [], {}))
    ensures Follows(Tiny([], 1, First(Taken, false), {}, {}, [], [], {}), Tiny([], 1, First(Watched, false), {}, {1}, [], [], {}))
    ensures Follows(Tiny([], 1, First(Watched, false), {}, {1}, [], [], {}), Tiny([], 1, First(Signalled, true), {}, {1}, NamesOf(1, [0]), [ONE], {}))
  {
    var w0 := Init(1, 1);
    var w1 := Tiny([], 1, First(Taken, false), {}, {}, [], [], {});
    assert Enabled(w0, Take(Map)) && Next(w0, Take(Map)) == w1;
    var w2 := Tiny([], 1, First(Watched, false), {}, {1}, [], [], {});
    assert Enabled(w1, Watch(1)) && Next(w1, Watch(1)) == w2;
    assert Enabled(w2, Done(1, [0])) && Next(w2, Done(1, [0])) == Tiny([], 1, First(Signalled, true), {}, {1}, NamesOf(1, [0]), [ONE], {});
  }

  lemma GivenUp(files: seq<string>)
    ensures Follows(Tiny([], 1, First(Signalled, true), {}, {1}, files, [ONE], {}), Tiny([], 1, First(Requeueing, true), {1}, {1}, files, [ONE], {1}))
    ensures Follows(Tiny([], 1, First(Requeueing, true), {1}, {1}, files, [ONE], {1}), Tiny([MapTask(0)], 1, First(Gone, true), {1}, {1}, files, [ONE], {1}))
  {
    var w3, w4 := Tiny([], 1, First(Signalled, true), {}, {1}, files, [ONE], {}), Tiny([], 1, First(Requeueing, true), {1}, {1}, files, [ONE], {1});
    assert Enabled(w3, ExpireLate(1)) && Next(w3, ExpireLate(1)) == w4;
    assert Enabled(w4, Requeue(1)) && Next(w4, Requeue(1)) == Tiny([MapTask(0)], 1, First(Gone, true), {1}, {1}, files, [ONE], {1});
  }

  lemma SecondAttempt(files: seq<string>)
    ensures Follows(Tiny([MapTask(0)], 1, First(Gone, true), {1}, {1}, files, [ONE], {1}), Tiny([], 2, Second(Taken, false), {1}, {1}, files, [ONE], {1}))
    ensures Follows(Tiny([], 2, Second(Taken, false), {1}, {1}, files, [ONE], {1}), Tiny([], 2, Second(Watched, false), {1}, {1, 2}, files, [ONE], {1}))
    ensures Follows(Tiny([], 2, Second(Watched, false), {1}, {1, 2}, files, [ONE], {1}),
                    Tiny([], 2, Second(Signalled, true), {1}, {1, 2}, files + NamesOf(2, [0]), [ONE, TWO], {1}))
  {
    var w5, w6 := Tiny([MapTask(0)], 1, First(Gone, true), {1}, {1}, files, [ONE], {1}), Tiny([], 2, Second(Taken, false), {1}, {1}, files, [ONE], {1});
    assert Enabled(w5, Take(Map)) && Next(w5, Take(Map)) == w6;
    var w7 := Tiny([], 2, Second(Watched, false), {1}, {1, 2}, files, [ONE], {1});
    assert Enabled(w6, Watch(2)) && Next(w6, Watch(2)) == w7;
    assert Enabled(w7, Done(2, [0])) && Next(w7, Done(2, [0])) == Tiny([], 2, Second(Signalled, true), {1}, {1, 2}, files + NamesOf(2, [0]), [ONE, TWO], {1});
  }

  /** One input: the report is taken, the timer wins all the same, and the second attempt is
      accepted as well. So "exactly once" does not hold of every run. */
  lemma AcceptedTwice() returns (run: seq<World>)
    ensures IsRun(1, 1, run) && !AcceptedOnce(run[|run| - 1])
  {
    hide Follows;
    FirstAttempt();
    var files := NamesOf(1, [0]);
    GivenUp(files);
    SecondAttempt(files);
    var end := Tiny([], 2, Second(Signalled, true), {1}, {1, 2}, files + NamesOf(2, [0]), [ONE, TWO], {1});
    run := [Init(1, 1), Tiny([], 1, First(Taken, false), {}, {}, [], [], {}), Tiny([], 1, First(Watched, false), {}, {1}, [], [], {}),
      Tiny([], 1, First(Signalled, true), {}, {1}, files, [ONE], {}), Tiny([], 1, First(Requeueing, true), {1}, {1}, files, [ONE], {1}),
      Tiny([MapTask(0)], 1, First(Gone, true), {1}, {1}, files, [ONE], {1}), Tiny([], 2, Second(Taken, false), {1}, {1}, files, [ONE], {1}),
      Tiny([], 2, Second(Watched, false), {1}, {1, 2}, files, [ONE], {1}), end];
    assert MapReport(end, 0) && MapReport(end, 1);
  }

  // ---- the files of a bucket

  /** The files with the bucket's number in their name. */
  function Own(files: seq<string>, b: nat): seq<string> {
    if files == [] then []
    else
      var n := |files| - 1;
      Own(files[..n], b) + if BucketIn(files[n]).Matched? && Number(BucketIn(files[n]).bucket) == b then [files[n]] else []
  }

  ghost predicate AllMatch(files: seq<string>) {
    forall i :: 0 <= i < |files| ==> BucketIn(files[i]).Matched?
  }

  lemma {:induction false} FilesForOwn(files: seq<string>, n: nat, b: nat)
    requires AllMatch(files) && n <= |files|
    ensures FilesFor(files, n, b) == Own(files[..n], b)
  {
    hide Number, BucketIn, Destination;
    if n > 0 {
      FilesForOwn(files, n - 1, b);
      assert files[..n][..n - 1] == files[..n - 1];
      Straight(files, n - 1);
    }
  }

  lemma Straight(files: seq<string>, i: nat)
    requires i < |files| && BucketIn(files[i]).Matched?
    ensures Destination(files, i) == Number(BucketIn(files[i]).bucket)
  {
    hide Number, BucketIn;
  }

  lemma {:induction false} OwnConcat(a: seq<string>, c: seq<string>, b: nat)
    ensures Own(a + c, b) == Own(a, b) + Own(c, b)
  {
    hide Number, BucketIn;
    if c == [] {
      assert a + c == a;
    } else {
      var n := |c| - 1;
      assert (a + c)[..|a| + n] == a + c[..n];
      OwnConcat(a, c[..n], b);
    }
  }

  /** A report lists each bucket's file once. */
  lemma {:induction false} OwnNames(id: nat, order: seq<nat>, m: nat, b: nat)
    requires m <= |order| && forall i, j :: 0 <= i < j < |order| ==> order[i] != order[j]
    ensures Own(NamesOf(id, order)[..m], b) == if b in order[..m] then [FileName(id, b)] else []
  {
    hide Number, BucketIn, FileName;
    if m > 0 {
      OwnNames(id, order, m - 1, b);
      assert NamesOf(id, order)[..m][..m - 1] == NamesOf(id, order)[..m - 1];
      NameRoundTrip(id, order[m - 1]);
      assert order[..m] == order[..m - 1] + [order[m - 1]];
    }
  }

  lemma OwnReport(id: nat, order: seq<nat>, n: nat, b: nat)
    requires IsOrder(order, n) && b < n
    ensures Own(NamesOf(id, order), b) == [FileName(id, b)]
  {
    OwnNames(id, order, |order|, b);
    L.DistinctCover(order, n);
    assert NamesOf(id, order)[..|order|] == NamesOf(id, order) && order[..|order|] == order;
  }

  /** The bucket's files, one from each accepted map report, in order. */
  ghost function BucketNames(w: World, n: nat, b: nat): seq<string>
    requires n <= |w.accepted|
  {
    if n == 0 then [] else BucketNames(w, n - 1, b) + if MapReport(w, n - 1) then [FileName(w.accepted[n - 1].id, b)] else []
  }

  lemma {:induction false} ListedNames(w: World, n: nat, b: nat)
    requires n <= |w.accepted| && b < w.nReduce && forall j: nat :: j < |w.accepted| ==> AcceptedOk(w, j)
    ensures AllMatch(Listed(w, n)) && Own(Listed(w, n), b) == BucketNames(w, n, b)
  {
    hide Own, BucketIn, FileName, Number;
    if n > 0 {
      ListedNames(w, n - 1, b);
      assert AcceptedOk(w, n - 1);
      var r := w.accepted[n - 1];
      if MapReport(w, n - 1) {
        OwnConcat(Listed(w, n - 1), NamesOf(r.id, r.order), b);
        OwnReport(r.id, r.order, w.nReduce, b);
        forall i | 0 <= i < |r.order| ensures BucketIn(NamesOf(r.id, r.order)[i]).Matched? { NameRoundTrip(r.id, r.order[i]); }
      } else {
        assert Listed(w, n) == Listed(w, n - 1);
      }
    } else {
      assert Own([], b) == [] by { OwnNothing(b); }
    }
  }

  lemma OwnNothing(b: nat)
    ensures Own([], b) == []
  {
  }

  /** Every intermediate file reaches the bucket it was written for: a bucket's reduce task gets
      its file from each accepted map report, and nothing else. */
  lemma BucketFiles(inputs: nat, nReduce: nat, run: seq<World>, k: nat, b: nat)
    requires IsRun(inputs, nReduce, run) && k < |run| && !run[k].phase.Mapping? && b < nReduce
    ensures Files(run[k].phase.groups, b) == BucketNames(run[k], |run[k].accepted|, b)
  {
    hide IsRun;
    var w := run[k];
    RunInv(inputs, nReduce, run, k);
    hide PlacesOk, Own, BucketIn, AttemptOk, ReportsApart, Reported1, AllIssued;
    ListedNames(w, |w.accepted|, b);
    FilesForOwn(w.mapFiles, |w.mapFiles|, b);
    assert w.mapFiles[..|w.mapFiles|] == w.mapFiles;
  }

  // ---- what the files hold

  /** What one input contributes to a bucket. */
  function Piece(x: Input, mapf: MapFunc, hash: string -> nat, n: nat, b: nat): seq<KeyValue>
    requires n > 0
  {
    Bucket(mapf(x.name, x.content), hash, n, b)
  }

  /** The given inputs' bags, together. */
  ghost function Pile<T>(bag: nat -> multiset<T>, tasks: seq<nat>): multiset<T> {
    if tasks == [] then multiset{} else Pile(bag, tasks[..|tasks| - 1]) + bag(tasks[|tasks| - 1])
  }

  lemma {:induction false} PileWithout<T>(bag: nat -> multiset<T>, tasks: seq<nat>, p: nat)
    requires p < |tasks|
    ensures Pile(bag, tasks) == Pile(bag, tasks[..p] + tasks[p + 1..]) + bag(tasks[p])
    decreases |tasks|
  {
    var m := |tasks| - 1;
    var rest := tasks[..p] + tasks[p + 1..];
    if p == m {
      assert rest == tasks[..m];
    } else {
      PileWithout(bag, tasks[..m], p);
      assert rest[..m - 1] == tasks[..m][..p] + tasks[..m][p + 1..];
      assert rest[m - 1] == tasks[m];
    }
  }

  /** What one input, by number, contributes to a bucket. */
  ghost function Bag(inputs: seq<Input>, mapf: MapFunc, hash: string -> nat, n: nat, b: nat): nat -> multiset<KeyValue>
    requires n > 0
  {
    (i: nat) => if i < |inputs| then multiset(Piece(inputs[i], mapf, hash, n, b)) else multiset{}
  }

  lemma {:induction false} BucketConcat(a: seq<KeyValue>, c: seq<KeyValue>, hash: string -> nat, n: nat, b: nat)
    requires n > 0
    ensures Bucket(a + c, hash, n, b) == Bucket(a, hash, n, b) + Bucket(c, hash, n, b)
  {
    if c == [] {
      assert a + c == a;
    } else {
      var m := |c| - 1;
      assert (a + c)[..|a| + m] == a + c[..m];
      BucketConcat(a, c[..m], hash, n, b);
    }
  }

  ghost predicate IsPermutation(tasks: seq<nat>, m: nat) {
    L.Distinct(tasks) && L.Within(tasks, m) && forall i :: 0 <= i < m ==> i in tasks
  }

  lemma DropLast(tasks: seq<nat>, m: nat, p: nat)
    requires IsPermutation(tasks, m) && p < |tasks| && m > 0 && tasks[p] == m - 1
    ensures IsPermutation(tasks[..p] + tasks[p + 1..], m - 1)
  {
    var rest := tasks[..p] + tasks[p + 1..];
    forall i | 0 <= i < m - 1 ensures i in rest {
      assert i in tasks;
      var j :| 0 <= j < |tasks| && tasks[j] == i;
      assert if j < p then rest[j] == i else rest[j - 1] == i;
    }
    forall i | 0 <= i < |rest| ensures rest[i] < m - 1 {
      assert rest[i] == if i < p then tasks[i] else tasks[i + 1];
    }
  }

  /** Taken in any order, the inputs' contributions are the bucket of everything mapped. */
  lemma {:induction false} PileIsBucket(inputs: seq<Input>, mapf: MapFunc, hash: string -> nat, n: nat, b: nat, tasks: seq<nat>, m: nat)
    requires n > 0 && m <= |inputs| && IsPermutation(tasks, m)
    ensures Pile(Bag(inputs, mapf, hash, n, b), tasks) == multiset(Bucket(Mapped(inputs[..m], mapf), hash, n, b))
    decreases m
  {
    hide Bucket, Bag, Pile, Mapped;
    if m == 0 {
      NoneWithin(tasks);
      NothingMapped(inputs, mapf, hash, n, b);
    } else {
      assert m - 1 in tasks;
      var p :| 0 <= p < |tasks| && tasks[p] == m - 1;
      DropLast(tasks, m, p);
      PileIsBucket(inputs, mapf, hash, n, b, tasks[..p] + tasks[p + 1..], m - 1);
      PileWithout(Bag(inputs, mapf, hash, n, b), tasks, p);
      OneMoreMapped(inputs, mapf, hash, n, b, m);
    }
  }

  lemma NoneWithin(tasks: seq<nat>)
    requires L.Distinct(tasks) && L.Within(tasks, 0)
    ensures tasks == []
  {
    L.DistinctCover(tasks, 0);
  }

  lemma NothingMapped(inputs: seq<Input>, mapf: MapFunc, hash: string -> nat, n: nat, b: nat)
    requires n > 0
    ensures Pile(Bag(inputs, mapf, hash, n, b), []) == multiset(Bucket(Mapped(inputs[..0], mapf), hash, n, b))
  {
    BucketNothing(hash, n, b);
  }

  lemma OneMoreMapped(inputs: seq<Input>, mapf: MapFunc, hash: string -> nat, n: nat, b: nat, m: nat)
    requires n > 0 && 0 < m <= |inputs|
    ensures multiset(Bucket(Mapped(inputs[..m], mapf), hash, n, b))
      == multiset(Bucket(Mapped(inputs[..m - 1], mapf), hash, n, b)) + Bag(inputs, mapf, hash, n, b)(m - 1)
  {
    hide Bucket;
    assert inputs[..m][..m - 1] == inputs[..m - 1];
    BucketConcat(Mapped(inputs[..m - 1], mapf), mapf(inputs[m - 1].name, inputs[m - 1].content), hash, n, b);
  }

  lemma BucketNothing(hash: string -> nat, n: nat, b: nat)
    requires n > 0
    ensures Bucket([], hash, n, b) == []
  {
  }

  /** The inputs of the accepted map reports, in order. */
  ghost function InputsOf(w: World, n: nat): seq<nat>
    requires n <= |w.accepted|
  {
    if n == 0 then []
    else InputsOf(w, n - 1) + if MapReport(w, n - 1) then [w.attempts[w.accepted[n - 1].id].task.input] else []
  }

  ghost predicate ReportsInput(w: World, j: nat, x: nat) {
    MapReport(w, j) && w.attempts[w.accepted[j].id].task == MapTask(x)
  }

  lemma {:induction false} InInputs(w: World, n: nat, x: nat)
    requires n <= |w.accepted|
    ensures x in InputsOf(w, n) <==> exists j :: 0 <= j < n && ReportsInput(w, j, x)
  {
    if n > 0 {
      InInputs(w, n - 1, x);
      if x in InputsOf(w, n) && x !in InputsOf(w, n - 1) { assert ReportsInput(w, n - 1, x); }
    }
  }

  lemma {:induction false} InputsDistinct(w: World, n: nat)
    requires n <= |w.accepted| && AcceptedOnce(w)
    ensures L.Distinct(InputsOf(w, n))
  {
    if n > 0 {
      InputsDistinct(w, n - 1);
      if MapReport(w, n - 1) { InInputs(w, n - 1, w.attempts[w.accepted[n - 1].id].task.input); }
    }
  }

  /** Once mapping is over and nothing was given up late, the accepted reports are of all inputs,
      each once. */
  lemma InputsPermutation(inputs: nat, nReduce: nat, run: seq<World>, k: nat)
    requires IsRun(inputs, nReduce, run) && k < |run| && !run[k].phase.Mapping? && NoneLate(run[k])
    ensures IsPermutation(InputsOf(run[k], |run[k].accepted|), inputs)
  {
    hide IsRun;
    var w := run[k];
    var n := |w.accepted|;
    var all := InputsOf(w, n);
    RunInv(inputs, nReduce, run, k);
    OnceIffNoneLate(inputs, nReduce, run, k);
    InputsDistinct(w, n);
    hide PlacesOk, ReportsOk, PhaseOk, NoneLate, AcceptedOnce, InputsOf, Reported1;
    forall x: nat | x < inputs ensures x in all {
      Barrier(inputs, nReduce, run, k, x);
      ReportedInput(w, x);
      InInputs(w, n, x);
    }
    forall i | 0 <= i < |all| ensures all[i] < inputs {
      InInputs(w, n, all[i]);
    }
  }

  lemma ReportedInput(w: World, x: nat)
    requires Reported1(w, MapTask(x))
    ensures exists j :: 0 <= j < |w.accepted| && ReportsInput(w, j, x)
  {
    var j :| Keeps(w, j) && AcceptedOk(w, j) && TaskOf(w, j) == MapTask(x);
    assert ReportsInput(w, j, x);
  }

  /** Each accepted attempt's files hold its input's items, bucket by bucket. */
  ghost predicate Stored(w: World, inputs: seq<Input>, mapf: MapFunc, hash: string -> nat, disk: string -> seq<KeyValue>) {
    && w.nReduce > 0
    && forall j: nat, x: nat, b: nat :: ReportsInput(w, j, x) && x < |inputs| && b < w.nReduce ==>
         disk(FileName(w.accepted[j].id, b)) == Piece(inputs[x], mapf, hash, w.nReduce, b)
  }

  ghost function Read(disk: string -> seq<KeyValue>, files: seq<string>): seq<KeyValue> {
    if files == [] then [] else Read(disk, files[..|files| - 1]) + disk(files[|files| - 1])
  }

  lemma {:induction false} ReadIsPile(w: World, inputs: seq<Input>, mapf: MapFunc, hash: string -> nat, disk: string -> seq<KeyValue>, n: nat, b: nat)
    requires Stored(w, inputs, mapf, hash, disk) && n <= |w.accepted| && b < w.nReduce
    requires forall id :: id in w.attempts && w.attempts[id].task.MapTask? ==> w.attempts[id].task.input < |inputs|
    ensures multiset(Read(disk, BucketNames(w, n, b))) == Pile(Bag(inputs, mapf, hash, w.nReduce, b), InputsOf(w, n))
  {
    hide FileName, Bucket, Bag, Pile, Read, Stored;
    if n == 0 {
      ReadNothing(disk, Bag(inputs, mapf, hash, w.nReduce, b));
    } else {
      ReadIsPile(w, inputs, mapf, hash, disk, n - 1, b);
      if MapReport(w, n - 1) {
        var id := w.accepted[n - 1].id;
        var x := w.attempts[id].task.input;
        HeldPiece(w, inputs, mapf, hash, disk, n - 1, x, b);
        ReadOneMore(disk, BucketNames(w, n - 1, b), FileName(id, b));
        PileOneMore(Bag(inputs, mapf, hash, w.nReduce, b), InputsOf(w, n - 1), x);
      } else {
        assert BucketNames(w, n, b) == BucketNames(w, n - 1, b) && InputsOf(w, n) == InputsOf(w, n - 1);
      }
    }
  }

  lemma ReadNothing(disk: string -> seq<KeyValue>, bag: nat -> multiset<KeyValue>)
    ensures multiset(Read(disk, [])) == Pile(bag, [])
  {
  }

  lemma HeldPiece(w: World, inputs: seq<Input>, mapf: MapFunc, hash: string -> nat, disk: string -> seq<KeyValue>, j: nat, x: nat, b: nat)
    requires Stored(w, inputs, mapf, hash, disk) && ReportsInput(w, j, x) && x < |inputs| && b < w.nReduce
    ensures multiset(disk(FileName(w.accepted[j].id, b))) == Bag(inputs, mapf, hash, w.nReduce, b)(x)
  {
    hide FileName, Bucket;
  }

  lemma ReadOneMore(disk: string -> seq<KeyValue>, files: seq<string>, file: string)
    ensures Read(disk, files + [file]) == Read(disk, files) + disk(file)
  {
    assert (files + [file])[..|files|] == files;
  }

  lemma PileOneMore<T>(bag: nat -> multiset<T>, tasks: seq<nat>, x: nat)
    ensures Pile(bag, tasks + [x]) == Pile(bag, tasks) + bag(x)
  {
    assert (tasks + [x])[..|tasks|] == tasks;
  }

  /** What a bucket's reduce task reads is, as a bag, that bucket of everything mapped. */
  lemma BucketContents(nReduce: nat, run: seq<World>, k: nat, inputs: seq<Input>, mapf: MapFunc, hash: string -> nat, disk: string -> seq<KeyValue>, b: nat)
    requires IsRun(|inputs|, nReduce, run) && k < |run| && !run[k].phase.Mapping? && NoneLate(run[k])
    requires Stored(run[k], inputs, mapf, hash, disk) && b < nReduce
    ensures multiset(Read(disk, Files(run[k].phase.groups, b))) == multiset(Bucket(Mapped(inputs, mapf), hash, nReduce, b))
  {
    hide IsRun, NoneLate, Stored, Read, Bucket, Files;
    var w := run[k];
    RunInv(|inputs|, nReduce, run, k);
    hide PlacesOk, ReportsOk, PhaseOk;
    BucketFiles(|inputs|, nReduce, run, k, b);
    InputsPermutation(|inputs|, nReduce, run, k);
    ReadIsPile(w, inputs, mapf, hash, disk, |w.accepted|, b);
    PileIsBucket(inputs, mapf, hash, nReduce, b, InputsOf(w, |w.accepted|), |inputs|);
    assert inputs[..|inputs|] == inputs;
  }

  /** The job as a whole: unless an accepted map report was given up, the reduce tasks' lines
      are the sequential program's, for any number of buckets, any hash, any order in which
      attempts, files and equal keys come, and any reduce function that ignores order. */
  lemma JobEqualsSequential(nReduce: nat, run: seq<World>, k: nat, inputs: seq<Input>, mapf: MapFunc, hash: string -> nat,
                            disk: string -> seq<KeyValue>, reducef: ReduceFunc, out: seq<KeyValue>, outs: seq<seq<KeyValue>>)
    requires IsRun(|inputs|, nReduce, run) && k < |run| && !run[k].phase.Mapping? && NoneLate(run[k])
    requires Stored(run[k], inputs, mapf, hash, disk) && nReduce > 0 && Insensitive(reducef) && |outs| == nReduce
    requires OutputOf(Mapped(inputs, mapf), reducef, out)
    requires forall b :: 0 <= b < nReduce ==> OutputOf(Read(disk, Files(run[k].phase.groups, b)), reducef, outs[b])
    ensures multiset(Flatten(outs)) == multiset(out)
  {
    hide IsRun, NoneLate, Stored, OutputOf, Insensitive, Read, Bucket, Files;
    var parts := seq(nReduce, (b: nat) => Read(disk, Files(run[k].phase.groups, b)));
    forall b | 0 <= b < nReduce ensures multiset(parts[b]) == multiset(Bucket(Mapped(inputs, mapf), hash, nReduce, b)) {
      BucketContents(nReduce, run, k, inputs, mapf, hash, disk, b);
    }
    DistributedEqualsSequential(Mapped(inputs, mapf), out, hash, nReduce, reducef, parts, outs);
  }
}
