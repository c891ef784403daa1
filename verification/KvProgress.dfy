/** What linearizability alone does not say of the service: recorded times are those at which
    calls begin and end, and every call can be completed, through losses of every kind. */
module KvProgress {
  import opened Linearizability
  import opened Kv
  import opened KvServer
  import opened KvService
  import KvLinear

  // ---- times

  /** What a later state w owes to an earlier one v, for the calls of a clerk that was idle in v. */
  ghost predicate SinceIdle(v: World, w: World, i: nat) {
    && v.clock <= w.clock && v.completed <= w.completed
    && i < |w.clerks| && (!w.clerks[i].phase.Idle? ==> v.clock <= w.clerks[i].call)
    && forall y :: |v.completed| <= y < |w.completed| ==>
         v.clock <= w.completed[y].ret && (w.completed[y].clientId == i ==> v.clock <= w.completed[y].call)
  }

  lemma SinceStep(v: World, w: World, i: nat, step: Step)
    requires SinceIdle(v, w, i) && Enabled(w, step)
    ensures SinceIdle(v, Next(w, step), i)
  {
    hide Answer, Effected, Kept, Offered;
  }

  lemma {:induction false} Since(n: nat, run: seq<World>, k: nat, l: nat, i: nat)
    requires IsRun(n, run) && k <= l < |run| && i < |run[k].clerks| && run[k].clerks[i].phase.Idle?
    ensures SinceIdle(run[k], run[l], i)
    decreases l
  {
    hide Enabled, Next;
    if k < l {
      Since(n, run, k, l - 1, i);
      assert Follows(run[l - 1], run[l]);
      var step :| Enabled(run[l - 1], step) && run[l] == Next(run[l - 1], step);
      hide SinceIdle;
      SinceStep(run[k], run[l - 1], i, step);
    }
  }

  lemma {:induction false} EndedBy(n: nat, run: seq<World>, k: nat, x: nat)
    requires IsRun(n, run) && k < |run| && x < |run[k].completed|
    ensures run[k].completed[x].ret <= run[k].clock
  {
    if k > 0 {
      assert Follows(run[k - 1], run[k]);
      var step :| Enabled(run[k - 1], step) && run[k] == Next(run[k - 1], step);
      if x < |run[k - 1].completed| { EndedBy(n, run, k - 1, x); }
      hide Answer, Effected, Kept, Offered, Moved;
    }
  }

  /** The record's times are honest. Take any moment of a run. A call that has ended by then is
      recorded to have ended no later; one that ends afterwards is recorded to have ended no
      earlier; and one by a clerk that is idle at that moment is recorded to have begun no earlier.
      So a call recorded to precede another did, and the other way round up to equal times. */
  lemma HonestTimes(n: nat, run: seq<World>, k: nat, l: nat, i: nat, x: nat, y: nat)
    requires IsRun(n, run) && k <= l < |run| && i < |run[k].clerks| && run[k].clerks[i].phase.Idle?
    requires x < |run[k].completed| <= y < |run[l].completed|
    ensures run[l].completed[x] == run[k].completed[x] && run[l].completed[x].ret <= run[k].clock <= run[l].completed[y].ret
    ensures run[l].completed[y].clientId == i ==> run[l].completed[x].ret <= run[l].completed[y].call
  {
    Since(n, run, k, l, i);
    EndedBy(n, run, k, x);
    hide IsRun;
  }

  // ---- calls go through

  lemma Extend(n: nat, run: seq<World>, step: Step) returns (more: seq<World>)
    requires IsRun(n, run) && Enabled(run[|run| - 1], step)
    ensures IsRun(n, more) && more == run + [Next(run[|run| - 1], step)]
  {
    hide Enabled, Next;
    var w := run[|run| - 1];
    more := run + [Next(w, step)];
    assert Follows(w, Next(w, step));
    forall k, l | 0 <= k && l == k + 1 && l < |more| ensures Follows(more[k], more[l]) {
      if l < |run| { assert Follows(run[k], run[l]); }
    }
  }

  /** The state of a call by clerk i that has taken effect. */
  ghost predicate InEffect(v: World, w: World, i: nat, id: int, input: KvInput, phase: Phase, cached: bool) {
    && i < |v.clerks| == |w.clerks| && w.clerks[i] == Clerk(phase, id, input, v.clock, |v.effects|)
    && w.store == Effected(v.store, input) && w.clock == v.clock && w.completed == v.completed
    && (cached ==> id in w.cache && w.cache[id] == Answer(v.store, input))
  }

  lemma TakesEffect(n: nat, run: seq<World>, i: nat, id: int, input: KvInput) returns (more: seq<World>)
    requires IsRun(n, run)
    requires var v := run[|run| - 1]; i < |v.clerks| && v.clerks[i].phase.Idle? && id !in v.used && id !in v.cache && Offered(input)
    ensures IsRun(n, more) && more != [] && InEffect(run[|run| - 1], more[|more| - 1], i, id, input, Answered(Answer(run[|run| - 1].store, input)), true)
  {
    hide IsRun, Answer, Effected;
    more := Extend(n, run, Begin(i, id, input));
    more := Extend(n, more, LookUp(i));
    more := Extend(n, more, Update(i));
  }

  /** The reply is lost, and the retry finds the answer in the cache. */
  lemma LosesReply(n: nat, v: World, run: seq<World>, i: nat, id: int, input: KvInput) returns (more: seq<World>)
    requires IsRun(n, run) && run != [] && InEffect(v, run[|run| - 1], i, id, input, Answered(Answer(v.store, input)), true)
    ensures IsRun(n, more) && more != [] && InEffect(v, more[|more| - 1], i, id, input, Answered(Answer(v.store, input)), true)
  {
    hide IsRun, Answer, Effected;
    more := Extend(n, run, Lose(i));
    more := Extend(n, more, LookUp(i));
  }

  /** Done is handled, its reply lost, and it is handled again. */
  lemma FinishesTwice(n: nat, v: World, run: seq<World>, i: nat, id: int, input: KvInput) returns (more: seq<World>)
    requires IsRun(n, run) && run != [] && InEffect(v, run[|run| - 1], i, id, input, Answered(Answer(v.store, input)), true)
    ensures IsRun(n, more) && more != [] && InEffect(v, more[|more| - 1], i, id, input, Released(Answer(v.store, input)), false)
  {
    hide IsRun, Answer, Effected;
    more := Extend(n, run, Receive(i));
    more := Extend(n, more, HandleDone(i));
    more := Extend(n, more, Lose(i));
    more := Extend(n, more, HandleDone(i));
  }

  /** From any state of any run, an idle clerk's call can be completed, through the loss of the
      reply and of the reply to Done: the record gains the call with what the store held, and the
      store changes once. */
  lemma CallGoesThrough(n: nat, run: seq<World>, i: nat, id: int, input: KvInput) returns (more: seq<World>)
    requires IsRun(n, run)
    requires var v := run[|run| - 1]; i < |v.clerks| && v.clerks[i].phase.Idle? && id !in v.used && Offered(input)
    ensures IsRun(n, more) && more != []
    ensures var v, w := run[|run| - 1], more[|more| - 1];
      && w.completed == v.completed + [Operation(i, input, v.clock, KvOutput(if input.op == 1 then "" else Lookup(v.store, input.key)), v.clock)]
      && w.store == Effected(v.store, input)
  {
    var v := run[|run| - 1];
    assert id !in v.cache by {
      KvLinear.RunInv(n, run, |run| - 1);
      KvLinear.CacheUsed(v);
    }
    more := TakesEffect(n, run, i, id, input);
    more := LosesReply(n, v, more, i, id, input);
    more := FinishesTwice(n, v, more, i, id, input);
    hide IsRun, Effected;
    more := Extend(n, more, Return(i));
  }
}
