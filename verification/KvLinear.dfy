/** The key/value service is linearizable, each request takes effect exactly once, and the
    cache holds nothing that no clerk still needs. */
module KvLinear {
  import opened Linearizability
  import opened Kv
  import opened KvServer
  import opened KvService
  import C = CheckHistory

  // ---- every step keeps the invariant

  lemma InitInv(n: nat)
    ensures Inv(Init(n))
  {
  }

  /** Clerk i moves within its call; at most its own entry leaves the cache. */
  ghost predicate Within1(w: World, d: World, i: nat) {
    && i < |w.clerks| == |d.clerks|
    && (forall j :: 0 <= j < |w.clerks| && j != i ==> d.clerks[j] == w.clerks[j])
    && var a, b := w.clerks[i], d.clerks[i];
       && !a.phase.Idle? && !b.phase.Idle? && b.id == a.id && b.place == a.place
       && d == w.(clerks := d.clerks, cache := d.cache)
       && (d.cache == w.cache || d.cache == w.cache - {a.id})
       && (a.id in d.cache ==> Awaits(b, a.id))
       && ClerkOk(d, i, b)
  }

  lemma BystanderOk(w: World, d: World, i: nat, j: nat)
    requires Inv(w) && Within1(w, d, i) && j < |w.clerks| && j != i
    ensures ClerkOk(d, j, d.clerks[j])
  {
    assert ClerkOk(w, j, w.clerks[j]);
    assert !w.clerks[j].phase.Idle? ==> w.clerks[j].id != w.clerks[i].id;
  }

  lemma CacheAwaited(w: World, d: World, i: nat, id: int)
    requires Inv(w) && Within1(w, d, i) && id in d.cache
    ensures Awaited(d.clerks, id)
  {
    hide ClerkOk, Ordered, Explained, RecordOk;
    assert Awaited(w.clerks, id);
    var x :| 0 <= x < |w.clerks| && Awaits(w.clerks[x], id);
    assert Awaits(d.clerks[x], id);
  }

  lemma RecordKept(w: World, d: World, i: nat)
    requires RecordOk(w) && Within1(w, d, i)
    ensures RecordOk(d)
  {
    hide ClerkOk;
    forall k | 0 <= k < |d.completed| ensures CompletedOk(d, k) { assert CompletedOk(w, k); }
    forall e: nat | e < |d.effects| ensures Covered(d, e) {
      assert Covered(w, e);
      if e !in w.places {
        var x :| 0 <= x < |w.clerks| && w.clerks[x].place == e;
        assert d.clerks[x].place == e;
      }
    }
  }

  lemma Within1Keeps(w: World, d: World, i: nat)
    requires Inv(w) && Within1(w, d, i)
    ensures Inv(d)
  {
    forall j | 0 <= j < |d.clerks| ensures ClerkOk(d, j, d.clerks[j]) {
      if j != i { BystanderOk(w, d, i, j); }
    }
    forall id | id in d.cache ensures Awaited(d.clerks, id) { CacheAwaited(w, d, i, id); }
    RecordKept(w, d, i);
    hide ClerkOk, RecordOk, Ordered, Explained, Awaited;
  }

  lemma InCallKeeps(w: World, step: Step)
    requires Inv(w) && Enabled(w, step) && (step.LookUp? || step.Lose? || step.Receive? || step.HandleDone?)
    ensures Inv(Next(w, step))
  {
    var d, i := Next(w, step), step.i;
    assert Within1(w, d, i) by {
      assert ClerkOk(w, i, w.clerks[i]);
      hide RecordOk, Explained, Ordered, Apart;
    }
    hide Inv;
    Within1Keeps(w, d, i);
  }

  lemma TickKeeps(w: World, later: int)
    requires Inv(w) && w.clock <= later
    ensures Inv(w.(clock := later))
  {
    var d := w.(clock := later);
    forall j | 0 <= j < |d.clerks| ensures ClerkOk(d, j, d.clerks[j]) { assert ClerkOk(w, j, w.clerks[j]); }
    assert RecordOk(d) by {
      forall k | 0 <= k < |d.completed| ensures CompletedOk(d, k) { assert CompletedOk(w, k); }
      forall e: nat | e < |d.effects| ensures Covered(d, e) { assert Covered(w, e); }
    }
    hide RecordOk, ClerkOk;
  }

  lemma CacheUsed(w: World)
    requires Inv(w)
    ensures w.cache.Keys <= w.used
  {
    forall id | id in w.cache ensures id in w.used {
      assert Awaited(w.clerks, id);
      var x :| 0 <= x < |w.clerks| && Awaits(w.clerks[x], id);
      assert ClerkOk(w, x, w.clerks[x]);
    }
  }

  lemma BeginKeeps(w: World, i: nat, id: int, input: KvInput)
    requires Inv(w) && Enabled(w, Begin(i, id, input))
    ensures Inv(Next(w, Begin(i, id, input)))
  {
    var d := Next(w, Begin(i, id, input));
    CacheUsed(w);
    assert ClerkOk(w, i, w.clerks[i]);
    forall j | 0 <= j < |d.clerks| ensures ClerkOk(d, j, d.clerks[j]) {
      if j != i { assert ClerkOk(w, j, w.clerks[j]); }
    }
    assert Apart(d.clerks) by {
      forall j | 0 <= j < |w.clerks| && !w.clerks[j].phase.Idle? ensures w.clerks[j].id != id {
        assert ClerkOk(w, j, w.clerks[j]);
      }
    }
    forall x | x in d.cache ensures Awaited(d.clerks, x) {
      assert Awaited(w.clerks, x);
      var y :| 0 <= y < |w.clerks| && Awaits(w.clerks[y], x);
      assert Awaits(d.clerks[y], x);
    }
    BeginRecord(w, d, i);
    hide ClerkOk, Apart, RecordOk, Awaited;
  }

  lemma BeginRecord(w: World, d: World, i: nat)
    requires RecordOk(w) && i < |w.clerks| && w.clerks[i].place == -1
    requires |d.clerks| == |w.clerks| && d == w.(clerks := w.clerks[i := d.clerks[i]], used := d.used) && d.clerks[i].place == -1
    ensures RecordOk(d)
  {
    forall k | 0 <= k < |d.completed| ensures CompletedOk(d, k) { assert CompletedOk(w, k); }
    forall e: nat | e < |d.effects| ensures Covered(d, e) {
      assert Covered(w, e);
      if e !in w.places {
        var x :| 0 <= x < |w.clerks| && w.clerks[x].place == e;
        assert d.clerks[x].place == e;
      }
    }
  }

  // ---- a request takes effect

  lemma SnocModel(effects: seq<Effect>, e: Effect)
    ensures ModelAfter(effects + [e]) == StoreStep(ModelAfter(effects), e.input, Kept(e.input, e.value)).1
  {
    assert (effects + [e])[..|effects|] == effects;
  }

  /** What the server does to its store, and answers, is what the model allows. */
  lemma ServerFollowsModel(store: map<string, string>, model: map<string, string>, inp: KvInput)
    requires SameView(store, model) && Offered(inp)
    ensures var (ok, after) := StoreStep(model, inp, Kept(inp, Answer(store, inp))); ok && SameView(Effected(store, inp), after)
  {
    assert Lookup(store, inp.key) == Lookup(model, inp.key);
    var (ok, after) := StoreStep(model, inp, Kept(inp, Answer(store, inp)));
    forall k ensures Lookup(Effected(store, inp), k) == Lookup(after, k) {
      assert Lookup(store, k) == Lookup(model, k);
    }
  }

  lemma EffectsKept(effects: seq<Effect>, e: Effect, store: map<string, string>)
    requires Explained(effects) && SameView(store, ModelAfter(effects)) && Offered(e.input) && e.value == Answer(store, e.input)
    ensures Explained(effects + [e]) && SameView(Effected(store, e.input), ModelAfter(effects + [e]))
  {
    hide SameView;
    ServerFollowsModel(store, ModelAfter(effects), e.input);
    SnocModel(effects, e);
    var more := effects + [e];
    forall k | 0 <= k < |more| ensures ExplainedAt(more, k) {
      if k < |effects| {
        assert ExplainedAt(effects, k);
        assert more[..k] == effects[..k];
      } else {
        assert more[..k] == effects;
      }
    }
  }

  lemma UpdateClerks(w: World, i: nat)
    requires Inv(w) && Enabled(w, Update(i))
    ensures var d := Next(w, Update(i)); forall j :: 0 <= j < |d.clerks| ==> ClerkOk(d, j, d.clerks[j])
  {
    hide Explained, SameView, RecordOk, Awaited, Answer, Effected;
    var d := Next(w, Update(i));
    assert ClerkOk(w, i, w.clerks[i]);
    forall j | 0 <= j < |d.clerks| ensures ClerkOk(d, j, d.clerks[j]) {
      if j != i {
        assert ClerkOk(w, j, w.clerks[j]);
        assert !w.clerks[j].phase.Idle? ==> w.clerks[j].id != w.clerks[i].id;
      }
    }
  }

  lemma UpdateRecord(w: World, i: nat)
    requires Inv(w) && Enabled(w, Update(i))
    ensures RecordOk(Next(w, Update(i)))
  {
    hide Explained, SameView, Awaited, Answer, Effected, Ordered, Apart;
    var d := Next(w, Update(i));
    assert ClerkOk(w, i, w.clerks[i]);
    hide ClerkOk;
    forall k | 0 <= k < |d.completed| ensures CompletedOk(d, k) { assert CompletedOk(w, k); }
    forall e: nat | e < |d.effects| ensures Covered(d, e) {
      if e < |w.effects| {
        assert Covered(w, e);
        if e !in w.places {
          var x :| 0 <= x < |w.clerks| && w.clerks[x].place == e;
          assert d.clerks[x].place == e;
        }
      } else {
        assert d.clerks[i].place == e;
      }
    }
    forall k | 0 <= k < |w.places| ensures w.places[k] < |w.effects| { assert CompletedOk(w, k); }
  }

  lemma UpdateApart(w: World, i: nat)
    requires Inv(w) && Enabled(w, Update(i))
    ensures Apart(Next(w, Update(i)).clerks)
  {
    hide Explained, SameView, Awaited, Answer, Effected, Ordered, RecordOk;
    forall j | 0 <= j < |w.clerks| ensures w.clerks[j].place < |w.effects| {
      assert ClerkOk(w, j, w.clerks[j]);
    }
    hide ClerkOk;
  }

  lemma UpdateKeeps(w: World, i: nat)
    requires Inv(w) && Enabled(w, Update(i))
    ensures Inv(Next(w, Update(i)))
  {
    var d, c := Next(w, Update(i)), w.clerks[i];
    UpdateClerks(w, i);
    UpdateRecord(w, i);
    UpdateApart(w, i);
    assert ClerkOk(w, i, c);
    EffectsKept(w.effects, d.effects[|w.effects|], w.store);
    hide Apart, RecordOk, Explained, SameView, Answer, Effected;
    forall x | x in d.cache ensures Awaited(d.clerks, x) {
      if x == c.id {
        assert Awaits(d.clerks[i], x);
      } else {
        assert Awaited(w.clerks, x);
        var y :| 0 <= y < |w.clerks| && Awaits(w.clerks[y], x);
        assert Awaits(d.clerks[y], x);
      }
    }
    hide ClerkOk, Awaited;
  }

  // ---- a call returns

  lemma ReturnRecord(w: World, i: nat)
    requires Inv(w) && Enabled(w, Return(i))
    ensures RecordOk(Next(w, Return(i)))
  {
    hide Explained, SameView, Awaited;
    var d, c := Next(w, Return(i)), w.clerks[i];
    assert ClerkOk(w, i, c);
    hide ClerkOk;
    forall k | 0 <= k < |d.completed| ensures CompletedOk(d, k) {
      if k < |w.completed| { assert CompletedOk(w, k); }
    }
    forall e: nat | e < |d.effects| ensures Covered(d, e) {
      assert Covered(w, e);
      if e in w.places {
        assert e in d.places;
      } else {
        var x :| 0 <= x < |w.clerks| && w.clerks[x].place == e;
        if x == i { assert d.places[|w.places|] == e; } else { assert d.clerks[x].place == e; }
      }
    }
    forall j | 0 <= j < |d.clerks| && d.clerks[j].place >= 0 ensures d.clerks[j].place !in d.places {
      assert w.clerks[j].place != c.place by { ActivePlaces(w, i, j); }
    }
  }

  lemma ActivePlaces(w: World, i: nat, j: nat)
    requires Inv(w) && i < |w.clerks| && j < |w.clerks| && i != j && w.clerks[i].place >= 0 && w.clerks[j].place >= 0
    ensures w.clerks[i].place != w.clerks[j].place
  {
    assert ClerkOk(w, i, w.clerks[i]) && ClerkOk(w, j, w.clerks[j]);
    hide ClerkOk, Explained, SameView, Awaited, RecordOk, Ordered;
  }

  lemma ReturnKeeps(w: World, i: nat)
    requires Inv(w) && Enabled(w, Return(i))
    ensures Inv(Next(w, Return(i)))
  {
    var d, c := Next(w, Return(i)), w.clerks[i];
    ReturnRecord(w, i);
    assert ClerkOk(w, i, c);
    hide RecordOk, Explained, SameView, Ordered;
    forall j | 0 <= j < |d.clerks| ensures ClerkOk(d, j, d.clerks[j]) {
      if j != i { assert ClerkOk(w, j, w.clerks[j]); }
    }
    forall x | x in d.cache ensures Awaited(d.clerks, x) {
      assert Awaited(w.clerks, x);
      var y :| 0 <= y < |w.clerks| && Awaits(w.clerks[y], x);
      assert Awaits(d.clerks[y], x);
    }
    hide ClerkOk, Awaited;
  }

  lemma StepInv(w: World, step: Step)
    requires Inv(w) && Enabled(w, step)
    ensures Inv(Next(w, step))
  {
    hide Inv;
    match step
    case Tick(later) => TickKeeps(w, later);
    case Begin(i, id, input) => BeginKeeps(w, i, id, input);
    case Update(i) => UpdateKeeps(w, i);
    case Return(i) => ReturnKeeps(w, i);
    case _ => InCallKeeps(w, step);
  }

  lemma {:induction false} RunInv(n: nat, run: seq<World>, k: nat)
    requires IsRun(n, run) && k < |run|
    ensures Inv(run[k])
  {
    hide Inv, Next, Enabled;
    if k == 0 {
      InitInv(n);
    } else {
      RunInv(n, run, k - 1);
      assert Follows(run[k - 1], run[k]);
      var step :| Enabled(run[k - 1], step) && run[k] == Next(run[k - 1], step);
      StepInv(run[k - 1], step);
    }
  }

  // ---- the history has a linearization

  /** Where the calls that took effect and have not returned did so. */
  ghost function PendingPlaces(clerks: seq<Clerk>): seq<nat> {
    if clerks == [] then []
    else
      var c := clerks[|clerks| - 1];
      PendingPlaces(clerks[..|clerks| - 1]) + if c.place >= 0 then [Slot(c)] else []
  }

  lemma {:induction false} PendingIff(clerks: seq<Clerk>, e: nat)
    ensures e in PendingPlaces(clerks) <==> exists i :: 0 <= i < |clerks| && clerks[i].place == e
  {
    if clerks != [] {
      var m := |clerks| - 1;
      PendingIff(clerks[..m], e);
      if i :| 0 <= i < |clerks| && clerks[i].place == e {
        if i < m { assert clerks[..m][i].place == e; }
      }
    }
  }

  lemma {:induction false} PendingDistinct(clerks: seq<Clerk>)
    requires forall i, j :: 0 <= i < j < |clerks| && clerks[i].place >= 0 ==> clerks[i].place != clerks[j].place
    ensures Distinct(PendingPlaces(clerks))
  {
    if clerks != [] {
      var m := |clerks| - 1;
      PendingDistinct(clerks[..m]);
      PendingIff(clerks[..m], Slot(clerks[m]));
    }
  }

  /** The effects of the whole history: first the completed calls', then the pending ones'. */
  ghost function AllPlaces(w: World): seq<nat> { w.places + PendingPlaces(w.clerks) }

  lemma PendingWithin(w: World)
    requires Inv(w)
    ensures Within(PendingPlaces(w.clerks), |w.effects|)
  {
    var places := PendingPlaces(w.clerks);
    forall k | 0 <= k < |places| ensures places[k] < |w.effects| {
      PendingIff(w.clerks, places[k]);
      var i :| 0 <= i < |w.clerks| && w.clerks[i].place == places[k];
      assert ClerkOk(w, i, w.clerks[i]);
    }
  }

  ghost function PendingOps(w: World, places: seq<nat>): (ops: seq<Op>)
    requires Within(places, |w.effects|)
    ensures |ops| == |places|
  {
    seq(|places|, k requires 0 <= k < |places| => Recorded(w.effects[places[k]], w.clock))
  }

  /** The completed calls, and the calls that took effect as if they returned now. */
  ghost function History(w: World): seq<Op>
    requires Inv(w)
  {
    PendingWithin(w);
    w.completed + PendingOps(w, PendingPlaces(w.clerks))
  }

  /** Every effect belongs to exactly one operation of the history. */
  lemma PlacesMatch(w: World)
    requires Inv(w)
    ensures |AllPlaces(w)| == |History(w)| == |w.effects| && Distinct(AllPlaces(w)) && Within(AllPlaces(w), |w.effects|)
    ensures forall e :: 0 <= e < |w.effects| ==> e in AllPlaces(w)
  {
    var all, n := AllPlaces(w), |w.effects|;
    PendingWithin(w);
    forall i, j | 0 <= i < j < |w.clerks| && w.clerks[i].place >= 0 ensures w.clerks[i].place != w.clerks[j].place {
      if w.clerks[j].place >= 0 { ActivePlaces(w, i, j); }
    }
    PendingDistinct(w.clerks);
    forall e | e in PendingPlaces(w.clerks) ensures e < n && e !in w.places {
      PendingIff(w.clerks, e);
      var i :| 0 <= i < |w.clerks| && w.clerks[i].place == e;
      assert ClerkOk(w, i, w.clerks[i]);
    }
    forall k | 0 <= k < |w.places| ensures w.places[k] < n { assert CompletedOk(w, k); }
    assert Within(all, n) by {
      forall k | 0 <= k < |all| ensures all[k] < n { if k >= |w.places| { assert all[k] in PendingPlaces(w.clerks); } }
    }
    assert Distinct(all) by { DistinctConcat(w.places, PendingPlaces(w.clerks)); }
    forall e: nat | e < n ensures e in all {
      assert Covered(w, e);
      PendingIff(w.clerks, e);
    }
    DistinctCover(all, n);
    assert Elements(all) == Iota(n);
  }

  lemma DistinctConcat(a: seq<nat>, b: seq<nat>)
    requires Distinct(a) && Distinct(b) && forall x :: x in b ==> x !in a
    ensures Distinct(a + b)
  {
    forall i, j | 0 <= i < j < |a + b| ensures (a + b)[i] != (a + b)[j] {
      if i < |a| <= j {
        assert (a + b)[i] in a && (a + b)[j] in b;
      }
    }
  }

  /** The operations in the order in which they took effect. */
  ghost function EffectOrder(places: seq<nat>, n: nat): (order: seq<nat>)
    requires forall e :: 0 <= e < n ==> e in places
    ensures |order| == n && forall e :: 0 <= e < n ==> order[e] < |places| && places[order[e]] == e
  {
    if n == 0 then []
    else
      assert n - 1 in places;
      var last :| 0 <= last < |places| && places[last] == n - 1;
      EffectOrder(places, n - 1) + [last]
  }

  /** The k-th operation is the record of its effect, and returns no earlier than that. */
  lemma HistoryAt(w: World, k: nat)
    requires Inv(w) && k < |History(w)|
    ensures |AllPlaces(w)| == |History(w)| && AllPlaces(w)[k] < |w.effects|
    ensures var e := w.effects[AllPlaces(w)[k]]; History(w)[k] == Recorded(e, History(w)[k].ret) && e.at <= History(w)[k].ret
  {
    PlacesMatch(w);
    if k < |w.completed| {
      assert CompletedOk(w, k);
    }
  }

  lemma {:induction false} AcceptedFrom(w: World, ops: seq<Op>, order: seq<nat>, k: nat)
    requires Explained(w.effects) && k <= |w.effects| == |order| && Within(order, |ops|)
    requires forall e :: 0 <= e < |order| ==> ops[order[e]].input == w.effects[e].input && ops[order[e]].output == Kept(w.effects[e].input, w.effects[e].value)
    ensures Accepts(StoreModel, ops, ModelAfter(w.effects[..k]), order[k..])
    decreases |order| - k
  {
    if k < |order| {
      AcceptedFrom(w, ops, order, k + 1);
      assert ExplainedAt(w.effects, k);
      SnocModel(w.effects[..k], w.effects[k]);
      assert w.effects[..k] + [w.effects[k]] == w.effects[..k + 1];
      assert order[k..][1..] == order[k + 1..];
      assert StepAt(StoreModel, ops, ModelAfter(w.effects[..k]), order[k])
        == StoreStep(ModelAfter(w.effects[..k]), w.effects[k].input, Kept(w.effects[k].input, w.effects[k].value));
    }
  }

  lemma InEffectOrder(w: World, order: seq<nat>)
    requires Inv(w) && |AllPlaces(w)| == |History(w)| && forall e :: 0 <= e < |w.effects| ==> e in AllPlaces(w)
    requires order == EffectOrder(AllPlaces(w), |w.effects|)
    ensures Within(order, |History(w)|) && forall i, j :: 0 <= i < j < |order| ==> !Precedes(History(w), order[j], order[i])
  {
    var ops := History(w);
    forall i, j | 0 <= i < j < |order| ensures !Precedes(ops, order[j], order[i]) {
      HistoryAt(w, order[i]);
      HistoryAt(w, order[j]);
      assert w.effects[i].call <= w.effects[i].at <= w.effects[j].at;
    }
  }

  /** In every state, the completed calls together with the calls that have taken effect are
      linearizable against the whole store: the effects are their linearization. */
  lemma AlwaysLinearizable(w: World)
    requires Inv(w)
    ensures Linearizable(StoreModel, History(w))
  {
    PlacesMatch(w);
    var ops, all := History(w), AllPlaces(w);
    var order := EffectOrder(all, |w.effects|);
    InEffectOrder(w, order);
    forall e | 0 <= e < |order|
      ensures ops[order[e]].input == w.effects[e].input && ops[order[e]].output == Kept(w.effects[e].input, w.effects[e].value)
    {
      HistoryAt(w, order[e]);
    }
    AcceptedFrom(w, ops, order, 0);
    assert w.effects[..0] == [] && order[0..] == order;
    assert Distinct(order) by {
      forall i, j | 0 <= i < j < |order| ensures order[i] != order[j] { assert all[order[i]] == i && all[order[j]] == j; }
    }
    assert Linearization(StoreModel, ops, order);
  }

  // ---- over whole runs

  ghost predicate Quiet(w: World) {
    forall i :: 0 <= i < |w.clerks| ==> w.clerks[i].phase.Idle?
  }

  lemma {:induction false} NothingPending(clerks: seq<Clerk>)
    requires forall i :: 0 <= i < |clerks| ==> clerks[i].place < 0
    ensures PendingPlaces(clerks) == []
  {
    if clerks != [] { NothingPending(clerks[..|clerks| - 1]); }
  }

  /** The service is linearizable: over every run, whatever is lost and however the clerks
      interleave. When no call is under way the completed calls alone are linearizable. */
  lemma ServiceLinearizable(n: nat, run: seq<World>, k: nat)
    requires IsRun(n, run) && k < |run|
    ensures Inv(run[k]) && Linearizable(StoreModel, History(run[k]))
    ensures Quiet(run[k]) ==> Linearizable(StoreModel, run[k].completed)
  {
    hide IsRun;
    var w := run[k];
    RunInv(n, run, k);
    AlwaysLinearizable(w);
    if Quiet(w) {
      forall i | 0 <= i < |w.clerks| ensures w.clerks[i].place < 0 { assert ClerkOk(w, i, w.clerks[i]); }
      NothingPending(w.clerks);
      assert History(w) == w.completed;
    }
  }

  lemma CompletedTimely(w: World)
    requires Inv(w)
    ensures C.Timely(w.completed)
  {
    forall k | 0 <= k < |w.completed| ensures w.completed[k].call <= w.completed[k].ret {
      assert CompletedOk(w, k);
    }
  }

  /** So the checker accepts the log of every run that has come to rest. */
  method CheckRun(n: nat, ghost run: seq<World>, w: World) returns (ok: bool)
    requires IsRun(n, run) && w == run[|run| - 1] && Quiet(w) && |w.completed| > 0
    ensures ok
  {
    hide Quiet, Linearizable, Inv;
    ServiceLinearizable(n, run, |run| - 1);
    CompletedTimely(w);
    ok := C.CheckOperations(w.completed);
  }

  /** Exactly once: no request takes effect twice, a completed call's request took effect
      between its call and its return, and the answer it got is the one given then. */
  lemma ExactlyOnce(n: nat, run: seq<World>, k: nat, x: nat)
    requires IsRun(n, run) && k < |run| && x < |run[k].completed|
    ensures var w := run[k];
      && (forall i, j :: 0 <= i < j < |w.effects| ==> w.effects[i].id != w.effects[j].id)
      && |w.places| == |w.completed| && Distinct(w.places) && w.places[x] < |w.effects|
      && var e, op := w.effects[w.places[x]], w.completed[x];
         op == Recorded(e, op.ret) && op.call <= e.at <= op.ret
  {
    hide IsRun;
    RunInv(n, run, k);
    assert CompletedOk(run[k], x);
  }

  /** Every retry is answered alike: whatever reply is on its way to a clerk is the one its
      request got when it took effect. */
  lemma RetriesAgree(n: nat, run: seq<World>, k: nat, i: nat)
    requires IsRun(n, run) && k < |run| && i < |run[k].clerks|
    requires var p := run[k].clerks[i].phase; p.Answered? || p.Finishing? || p.Released?
    ensures var w, c := run[k], run[k].clerks[i];
      TookEffect(w.effects, i, c, c.place) && c.phase.value == w.effects[c.place].value
      && forall e :: 0 <= e < |w.effects| && w.effects[e].id == c.id ==> e == c.place
  {
    hide IsRun;
    RunInv(n, run, k);
    assert ClerkOk(run[k], i, run[k].clerks[i]);
  }

  /** Bounded memory: the cache holds only requests of clerks whose Done is still to be
      handled, at most one for each clerk, and none when all are idle. */
  lemma CacheBounded(n: nat, run: seq<World>, k: nat)
    requires IsRun(n, run) && k < |run|
    ensures forall id :: id in run[k].cache ==> Awaited(run[k].clerks, id)
    ensures |run[k].cache| <= |run[k].clerks|
    ensures Quiet(run[k]) ==> run[k].cache == map[]
  {
    hide IsRun;
    RunInv(n, run, k);
    var w := run[k];
    hide ClerkOk, RecordOk, Explained, SameView, Ordered, Apart;
    CacheCount(w.cache.Keys, w.clerks);
    if Quiet(w) {
      forall id ensures id !in w.cache { NobodyAwaits(w.clerks, id); }
    }
  }

  lemma NobodyAwaits(clerks: seq<Clerk>, id: int)
    requires forall i :: 0 <= i < |clerks| ==> clerks[i].phase.Idle?
    ensures !Awaited(clerks, id)
  {
  }

  lemma {:induction false} CacheCount(ids: set<int>, clerks: seq<Clerk>)
    requires forall id :: id in ids ==> Awaited(clerks, id)
    ensures |ids| <= |clerks|
  {
    if clerks == [] {
      forall id ensures id !in ids { NobodyAwaits(clerks, id); }
      assert ids == {};
    } else {
      var m := |clerks| - 1;
      var rest := ids - {clerks[m].id};
      forall id | id in rest ensures Awaited(clerks[..m], id) {
        var x :| 0 <= x < |clerks| && Awaits(clerks[x], id);
        assert Awaits(clerks[..m][x], id);
      }
      CacheCount(rest, clerks[..m]);
      assert |ids| <= |rest| + 1;
    }
  }
}
