/** The checker over all partitions at once: a search per partition, one collector, a kill
    flag they share, and perhaps a timeout. */
module Parallel {
  import opened Linearizability

  datatype Verdict = Ok | Illegal | Unknown

  /** A search is running, has put its result in the channel, or has had it read. */
  datatype Search = Running | Sent(ok: bool) | Read(ok: bool)

  datatype Phase = Looping | Draining | Returned(verdict: Verdict)

  datatype Pool = Pool(searches: seq<Search>, kill: bool, ok: bool, timedOut: bool, count: nat, phase: Phase)

  /** truth[i] is what the i-th search finds if it is left to finish. */
  datatype Setup = Setup(truth: seq<bool>, computeInfo: bool, hasTimeout: bool)

  ghost predicate Init(c: Setup, s: Pool) {
    && |s.searches| == |c.truth| && (forall i :: 0 <= i < |s.searches| ==> s.searches[i].Running?)
    && !s.kill && s.ok && !s.timedOut && s.count == 0 && s.phase.Looping?
  }

  datatype Step = Finish(i: nat, result: bool) | Receive(i: nat) | Timeout | Drain(i: nat) | Return

  ghost predicate Enabled(c: Setup, s: Pool, step: Step) {
    match step
    case Finish(i, result) =>
      i < |s.searches| && s.searches[i].Running? && |s.searches| == |c.truth| && (result == c.truth[i] || (s.kill && !result))
    case Receive(i) => s.phase.Looping? && i < |s.searches| && s.searches[i].Sent?
    case Timeout => s.phase.Looping? && c.hasTimeout
    case Drain(i) => s.phase.Draining? && s.count < |s.searches| && i < |s.searches| && s.searches[i].Sent?
    case Return => s.phase.Draining? && (s.count >= |s.searches| || !c.computeInfo)
  }

  function Apply(c: Setup, s: Pool, step: Step): Pool {
    match step
    case Finish(i, result) =>
      if i < |s.searches| then s.(searches := s.searches[i := Sent(result)]) else s
    case Receive(i) =>
      if i < |s.searches| && s.searches[i].Sent? then
        var ok := s.ok && s.searches[i].ok;
        var stop := !ok && !c.computeInfo;
        s.(searches := s.searches[i := Read(s.searches[i].ok)], count := s.count + 1, ok := ok,
           kill := s.kill || stop,
           phase := if stop || s.count + 1 >= |s.searches| then Draining else Looping)
      else s
    case Timeout => s.(timedOut := true, kill := true, phase := Draining)
    case Drain(i) =>
      if i < |s.searches| && s.searches[i].Sent? then
        s.(searches := s.searches[i := Read(s.searches[i].ok)], count := s.count + 1)
      else s
    case Return => s.(phase := Returned(if !s.ok then Illegal else if s.timedOut then Unknown else Ok))
  }

  ghost predicate Next(c: Setup, s: Pool, s': Pool) {
    exists step :: Enabled(c, s, step) && s' == Apply(c, s, step)
  }

  ghost predicate IsRun(c: Setup, run: seq<Pool>) {
    && |run| > 0 && Init(c, run[0])
    && forall k, l :: 0 <= k < |run| && 0 <= l < |run| && l == k + 1 ==> Next(c, run[k], run[l])
  }

  // ---------------------------------------------------------------------------

  ghost function ReadSet(s: Pool): set<nat> {
    set i | 0 <= i < |s.searches| && s.searches[i].Read?
  }

  ghost predicate AllTrue(c: Setup) {
    forall i :: 0 <= i < |c.truth| ==> c.truth[i]
  }

  /** What every reachable state satisfies. */
  ghost predicate Inv(c: Setup, s: Pool) {
    && |s.searches| == |c.truth|
    && s.count == |ReadSet(s)|
    // until the flag is set, every result is that of a finished search
    && (!s.kill ==> forall i :: 0 <= i < |s.searches| && !s.searches[i].Running? ==> s.searches[i].ok == c.truth[i])
    // while the collector loops, the flag is not set and ok sums up what has been read
    && (s.phase.Looping? ==> !s.kill && !s.timedOut && (s.ok ==> forall i :: 0 <= i < |s.searches| && s.searches[i].Read? ==> c.truth[i]))
    && (!s.ok ==> exists i :: 0 <= i < |c.truth| && !c.truth[i])
    && (!s.phase.Looping? && s.ok && !s.timedOut ==> AllTrue(c))
    && (s.timedOut ==> c.hasTimeout)
    && (c.computeInfo && !s.timedOut ==> !s.kill)
    && (s.phase.Returned? ==> s.phase.verdict == if !s.ok then Illegal else if s.timedOut then Unknown else Ok)
    && (s.phase.Returned? && c.computeInfo ==> s.count >= |s.searches|)
    && (|c.truth| == 0 && !s.phase.Looping? ==> s.timedOut)
  }

  lemma ReadOne(s: Pool, i: nat, ok: bool)
    requires i < |s.searches| && !s.searches[i].Read?
    ensures ReadSet(s.(searches := s.searches[i := Read(ok)])) == ReadSet(s) + {i}
    ensures |ReadSet(s) + {i}| == |ReadSet(s)| + 1
  {
  }

  lemma ReadAll(s: Pool)
    ensures |ReadSet(s)| <= |s.searches|
    ensures |ReadSet(s)| >= |s.searches| ==> forall i :: 0 <= i < |s.searches| ==> s.searches[i].Read?
  {
    var all := Iota(|s.searches|);
    SubsetCount(ReadSet(s), all);
    if |ReadSet(s)| >= |s.searches| {
      forall i | 0 <= i < |s.searches| ensures s.searches[i].Read? {
        assert i in all;
      }
    }
  }

  lemma InitInv(c: Setup, s: Pool)
    requires Init(c, s)
    ensures Inv(c, s)
  {
    assert ReadSet(s) == {};
  }

  lemma StepInv(c: Setup, s: Pool, step: Step)
    requires Inv(c, s) && Enabled(c, s, step)
    ensures Inv(c, Apply(c, s, step))
  {
    var s' := Apply(c, s, step);
    match step
    case Finish(i, result) =>
      assert ReadSet(s') == ReadSet(s);
    case Receive(i) =>
      ReceiveInv(c, s, i);
    case Timeout =>
      assert ReadSet(s') == ReadSet(s);
    case Drain(i) =>
      ReadOne(s, i, s.searches[i].ok);
      assert ReadSet(s') == ReadSet(s) + {i};
    case Return =>
      assert ReadSet(s') == ReadSet(s);
  }

  lemma ReceiveInv(c: Setup, s: Pool, i: nat)
    requires Inv(c, s) && Enabled(c, s, Receive(i))
    ensures Inv(c, Apply(c, s, Receive(i)))
  {
    var s' := Apply(c, s, Receive(i));
    ReadOne(s, i, s.searches[i].ok);
    assert ReadSet(s') == ReadSet(s) + {i};
    ReadAll(s');
    assert s.searches[i].ok == c.truth[i];
    if s'.ok {
      forall j | 0 <= j < |s.searches| && s'.searches[j].Read? ensures c.truth[j] {
        if j != i { assert s.searches[j].Read?; }
      }
      if s.count + 1 >= |s.searches| {
        forall j | 0 <= j < |c.truth| ensures c.truth[j] { assert s'.searches[j].Read?; }
      }
    }
  }

  lemma {:induction false} RunInv(c: Setup, run: seq<Pool>, k: nat)
    requires IsRun(c, run) && k < |run|
    ensures Inv(c, run[k])
  {
    if k == 0 {
      InitInv(c, run[0]);
    } else {
      RunInv(c, run, k - 1);
      assert Next(c, run[k - 1], run[k]);
      var step :| Enabled(c, run[k - 1], step) && run[k] == Apply(c, run[k - 1], step);
      StepInv(c, run[k - 1], step);
    }
  }

  /** Whatever the order in which results arrive and whenever the timeout fires: Ok means
      every search succeeds, Illegal means some search left to finish fails, and Unknown
      means the timeout fired. With nothing to search, only the timeout ends the wait. */
  lemma VerdictSound(c: Setup, run: seq<Pool>, k: nat)
    requires IsRun(c, run) && k < |run| && run[k].phase.Returned?
    ensures run[k].phase.verdict == Ok ==> AllTrue(c)
    ensures run[k].phase.verdict == Illegal ==> !AllTrue(c)
    ensures run[k].phase.verdict == Unknown ==> c.hasTimeout && run[k].timedOut
    ensures !run[k].timedOut ==> (run[k].phase.verdict == Illegal <==> !AllTrue(c)) && (run[k].phase.verdict == Ok <==> AllTrue(c))
    ensures run[k].timedOut ==> run[k].phase.verdict != Ok
    ensures !c.hasTimeout ==> (run[k].phase.verdict == Ok <==> AllTrue(c)) && |c.truth| > 0
  {
    RunInv(c, run, k);
  }

  /** When partial results are kept and there was no timeout, every search was left to
      finish, so every result and every record in the report is that of a finished search. */
  lemma ReportComplete(c: Setup, run: seq<Pool>, k: nat)
    requires IsRun(c, run) && k < |run| && run[k].phase.Returned?
    requires c.computeInfo && !run[k].timedOut
    ensures |run[k].searches| == |c.truth|
    ensures forall i :: 0 <= i < |c.truth| ==> run[k].searches[i] == Read(c.truth[i])
  {
    RunInv(c, run, k);
    ReadAll(run[k]);
  }

  /** Some result read so far is a failure. */
  ghost predicate SawFailure(s: Pool) {
    exists i :: 0 <= i < |s.searches| && s.searches[i] == Read(false)
  }

  lemma LoopStep(c: Setup, s: Pool, step: Step)
    requires Enabled(c, s, step) && s.phase.Looping? && (s.ok <==> !SawFailure(s))
    ensures var t := Apply(c, s, step);
      (step.Timeout? ==> t.ok == s.ok) && (!step.Timeout? ==> (t.ok <==> !SawFailure(t)))
  {
    var t := Apply(c, s, step);
    if SawFailure(s) {
      var j :| 0 <= j < |s.searches| && s.searches[j] == Read(false);
      assert t.searches[j] == Read(false);
    }
    if step.Receive? { assert t.searches[step.i] == Read(s.searches[step.i].ok); }
    if SawFailure(t) {
      var j :| 0 <= j < |t.searches| && t.searches[j] == Read(false);
      assert s.searches[j] == Read(false) || (step.Receive? && j == step.i);
    }
  }

  /** While the collector loops, ok is down exactly when a failure has been read. */
  lemma {:induction false} LoopSaw(c: Setup, run: seq<Pool>, k: nat)
    requires IsRun(c, run) && k < |run| && run[k].phase.Looping?
    ensures run[k].ok <==> !SawFailure(run[k])
  {
    if k > 0 {
      assert Next(c, run[k - 1], run[k]);
      var step :| Enabled(c, run[k - 1], step) && run[k] == Apply(c, run[k - 1], step);
      LoopSaw(c, run, k - 1);
      LoopStep(c, run[k - 1], step);
    }
  }

  /** Once the loop is left, what has been found stands. */
  lemma {:induction false} OkStands(c: Setup, run: seq<Pool>, l: nat, k: nat)
    requires IsRun(c, run) && l <= k < |run| && !run[l].phase.Looping?
    ensures run[k].ok == run[l].ok && run[k].timedOut == run[l].timedOut && !run[k].phase.Looping?
    decreases k
  {
    if l < k {
      OkStands(c, run, l, k - 1);
      assert Next(c, run[k - 1], run[k]);
    }
  }

  /** After a timeout the verdict is Illegal exactly when a failure had been read by then, and
      Unknown otherwise. */
  lemma TimeoutVerdict(c: Setup, run: seq<Pool>, l: nat, k: nat)
    requires IsRun(c, run) && l + 1 <= k < |run| && run[l].phase.Looping? && run[l + 1].timedOut && run[k].phase.Returned?
    ensures run[k].phase.verdict == if SawFailure(run[l]) then Illegal else Unknown
  {
    RunInv(c, run, l);
    RunInv(c, run, k);
    LoopSaw(c, run, l);
    assert Next(c, run[l], run[l + 1]);
    OkStands(c, run, l + 1, k);
  }

  /** Without partial results to keep, the first failure that is read ends the wait and tells the
      other searches to stop. */
  lemma {:induction false} FailureEndsWait(c: Setup, run: seq<Pool>, k: nat)
    requires IsRun(c, run) && k < |run| && !c.computeInfo && SawFailure(run[k])
    ensures !run[k].phase.Looping? && run[k].kill
  {
    assert k > 0;
    assert Next(c, run[k - 1], run[k]);
    var step :| Enabled(c, run[k - 1], step) && run[k] == Apply(c, run[k - 1], step);
    if SawFailure(run[k - 1]) {
      FailureEndsWait(c, run, k - 1);
    } else {
      var j :| 0 <= j < |run[k].searches| && run[k].searches[j] == Read(false);
      assert run[k - 1].searches[j] != Read(false);
      if step.Drain? { LeftKills(c, run, k - 1); }
    }
  }

  /** With nothing to keep, the wait is left with the flag set, or with every search read. */
  lemma {:induction false} LeftKills(c: Setup, run: seq<Pool>, k: nat)
    requires IsRun(c, run) && k < |run| && !run[k].phase.Looping?
    ensures run[k].kill || forall i :: 0 <= i < |run[k].searches| ==> run[k].searches[i].Read?
  {
    assert k > 0;
    assert Next(c, run[k - 1], run[k]);
    var step :| Enabled(c, run[k - 1], step) && run[k] == Apply(c, run[k - 1], step);
    if !run[k - 1].phase.Looping? {
      LeftKills(c, run, k - 1);
    } else {
      RunInv(c, run, k);
      ReadAll(run[k]);
    }
  }

  /** A timeout tells the searches to stop, and they are never told to go on. */
  lemma {:induction false} TimeoutStops(c: Setup, run: seq<Pool>, l: nat, k: nat)
    requires IsRun(c, run) && l <= k < |run| && (run[l].timedOut || run[l].kill)
    ensures run[k].kill
    decreases k, l
  {
    if l < k {
      TimeoutStops(c, run, l, k - 1);
      assert Next(c, run[k - 1], run[k]);
    } else if run[l].timedOut && l > 0 {
      assert Next(c, run[l - 1], run[l]);
      if run[l - 1].timedOut { TimeoutStops(c, run, l - 1, l - 1); }
    }
  }
}
