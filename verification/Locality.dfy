/** A history of the store is linearizable exactly when the history of each key is. */
module Locality {
  import opened Linearizability
  import opened Entries
  import opened Kv

  /** Where the operations on key stand in the history. */
  ghost function Places(history: seq<Op>, key: string): (idx: seq<nat>)
    ensures |idx| == |OnKey(history, key)| && Within(idx, |history|)
    ensures forall i :: 0 <= i < |idx| ==> OnKey(history, key)[i] == history[idx[i]] && history[idx[i]].input.key == key
    ensures forall i, j :: 0 <= i < j < |idx| ==> idx[i] < idx[j]
    ensures forall x :: 0 <= x < |history| && history[x].input.key == key ==> x in idx
  {
    if history == [] then []
    else
      var n := |history| - 1;
      Places(history[..n], key) + if history[n].input.key == key then [n] else []
  }

  /** order lists the operations on key, by their places in the whole history, as a
      linearization of that key's value. */
  ghost predicate KeyOrder(history: seq<Op>, key: string, order: seq<nat>) {
    && Distinct(order) && Within(order, |history|)
    && (forall x :: x in order ==> history[x].input.key == key)
    && (forall x :: 0 <= x < |history| && history[x].input.key == key ==> x in order)
    && (forall i, j :: 0 <= i < j < |order| ==> !Precedes(history, order[j], order[i]))
    && Accepts(KvModel, history, "", order)
  }

  lemma {:induction false} SameRun(history: seq<Op>, part: seq<Op>, idx: seq<nat>, s: string, local: seq<nat>, global: seq<nat>)
    requires |idx| == |part| && Within(idx, |history|) && forall i :: 0 <= i < |idx| ==> part[i] == history[idx[i]]
    requires Within(local, |part|) && Within(global, |history|)
    requires |local| == |global| && forall i :: 0 <= i < |local| ==> global[i] == idx[local[i]]
    ensures Accepts(KvModel, part, s, local) <==> Accepts(KvModel, history, s, global)
    decreases |local|
  {
    if local != [] {
      SameRun(history, part, idx, StepAt(KvModel, part, s, local[0]).1, local[1..], global[1..]);
    }
  }

  lemma PartToWhole(history: seq<Op>, key: string, local: seq<nat>) returns (global: seq<nat>)
    requires Linearization(KvModel, OnKey(history, key), local)
    ensures KeyOrder(history, key, global)
  {
    var part := OnKey(history, key);
    var idx := Places(history, key);
    global := seq(|local|, i requires 0 <= i < |local| => idx[local[i]]);
    SameRun(history, part, idx, "", local, global);
    DistinctCover(local, |part|);
    forall x | 0 <= x < |history| && history[x].input.key == key ensures x in global {
      assert x in idx;
      var i := Position(idx, x);
      assert i in local;
      assert global[Position(local, i)] == x;
    }
    forall i, j | 0 <= i < j < |global| ensures global[i] != global[j] && !Precedes(history, global[j], global[i]) {
      assert !Precedes(part, local[j], local[i]);
      assert local[i] != local[j];
    }
  }

  lemma WholeToPart(history: seq<Op>, key: string, global: seq<nat>) returns (local: seq<nat>)
    requires KeyOrder(history, key, global)
    ensures Linearization(KvModel, OnKey(history, key), local)
  {
    var part := OnKey(history, key);
    var idx := Places(history, key);
    forall i | 0 <= i < |global| ensures global[i] in idx {
      assert global[i] in global;
    }
    local := seq(|global|, i requires 0 <= i < |global| => Position(idx, global[i]));
    SameRun(history, part, idx, "", local, global);
    ElementsCount(idx);
    ElementsCount(global);
    assert Elements(idx) == Elements(global);
    forall i, j | 0 <= i < j < |local| ensures local[i] != local[j] && !Precedes(part, local[j], local[i]) {
      assert idx[local[i]] == global[i] && idx[local[j]] == global[j];
    }
  }

  // ---------------------------------------------------------------------------
  // From the whole to the parts.

  /** The operations of order that are on key. */
  ghost function Filter(history: seq<Op>, key: string, order: seq<nat>): (r: seq<nat>)
    requires Within(order, |history|)
    ensures Within(r, |history|)
    ensures forall x :: x in r <==> x in order && history[x].input.key == key
  {
    if order == [] then []
    else
      var rest := Filter(history, key, order[1..]);
      if history[order[0]].input.key == key then [order[0]] + rest else rest
  }

  lemma {:induction false} FilterKeepsOrder(history: seq<Op>, key: string, order: seq<nat>)
    requires Within(order, |history|) && Distinct(order)
    requires forall i, j :: 0 <= i < j < |order| ==> !Precedes(history, order[j], order[i])
    ensures var r := Filter(history, key, order);
      Distinct(r) && forall i, j :: 0 <= i < j < |r| ==> !Precedes(history, r[j], r[i])
    decreases |order|
  {
    if order != [] {
      var rest := Filter(history, key, order[1..]);
      FilterKeepsOrder(history, key, order[1..]);
      forall y | y in rest ensures y != order[0] && !Precedes(history, y, order[0]) {
        var j := Position(order[1..], y);
        assert order[j + 1] == y;
      }
    }
  }

  /** A step of the store, seen at one key, is a step of that key's value or nothing at all. */
  lemma KeySeesStore(store: map<string, string>, inp: KvInput, out: KvOutput, key: string)
    ensures var (ok, after) := StoreStep(store, inp, out);
      if inp.key == key then Step(Lookup(store, key), inp, out) == (ok, Lookup(after, key)) else Lookup(after, key) == Lookup(store, key)
  {
  }

  /** The store's run, seen at one key. */
  lemma {:induction false} FilterAccepts(history: seq<Op>, key: string, store: map<string, string>, order: seq<nat>)
    requires Within(order, |history|)
    requires Accepts(StoreModel, history, store, order)
    ensures Accepts(KvModel, history, Lookup(store, key), Filter(history, key, order))
    decreases |order|
  {
    if order != [] {
      var x := order[0];
      var (ok, store') := StepAt(StoreModel, history, store, x);
      FilterAccepts(history, key, store', order[1..]);
      KeySeesStore(store, history[x].input, history[x].output, key);
      hide StoreStep, Step, Lookup;
      var r := Filter(history, key, order);
      if history[x].input.key == key {
        assert StepAt(KvModel, history, Lookup(store, key), x) == (true, Lookup(store', key));
        assert r[1..] == Filter(history, key, order[1..]);
      }
    }
  }

  /** A linearization of the store gives one of each key. */
  lemma WholeGivesParts(history: seq<Op>, key: string)
    requires Linearizable(StoreModel, history)
    ensures Linearizable(KvModel, OnKey(history, key))
  {
    var order :| Linearization(StoreModel, history, order);
    var r := Filter(history, key, order);
    FilterKeepsOrder(history, key, order);
    FilterAccepts(history, key, map[], order);
    DistinctCover(order, |history|);
    var local := WholeToPart(history, key, r);
  }

  // ---------------------------------------------------------------------------
  // From the parts to the whole.

  /** What is left to merge: for each key, the rest of its order. */
  type Queues = map<string, seq<nat>>

  ghost predicate QueueOk(history: seq<Op>, key: string, q: seq<nat>, value: string) {
    && Distinct(q) && Within(q, |history|)
    && (forall i :: 0 <= i < |q| ==> history[q[i]].input.key == key)
    && (forall i, j :: 0 <= i < j < |q| ==> !Precedes(history, q[j], q[i]))
    && Accepts(KvModel, history, value, q)
  }

  ghost predicate Mergeable(history: seq<Op>, qs: Queues, store: map<string, string>) {
    forall key :: key in qs ==> QueueOk(history, key, qs[key], Lookup(store, key))
  }

  ghost function Queued(qs: Queues): set<nat> {
    set key, i | key in qs && 0 <= i < |qs[key]| :: qs[key][i]
  }

  /** Among the front operations, one called earliest: no operation still queued finished
      before it was called. */
  lemma EarliestFront(history: seq<Op>, qs: Queues, store: map<string, string>) returns (key: string)
    requires Mergeable(history, qs, store) && Queued(qs) != {}
    requires forall x :: 0 <= x < |history| ==> history[x].call <= history[x].ret
    ensures key in qs && qs[key] != [] && qs[key][0] < |history|
    ensures forall y :: y in Queued(qs) ==> y < |history| && !Precedes(history, y, qs[key][0])
  {
    var fronts := set k | k in qs && qs[k] != [] :: k;
    var z :| z in Queued(qs);
    var k0, i0 :| k0 in qs && 0 <= i0 < |qs[k0]| && qs[k0][i0] == z;
    assert k0 in fronts;
    key := LeastCall(history, qs, fronts);
    var x := qs[key][0];
    forall y | y in Queued(qs) ensures y < |history| && !Precedes(history, y, x) {
      var k, i :| k in qs && 0 <= i < |qs[k]| && qs[k][i] == y;
      assert QueueOk(history, k, qs[k], Lookup(store, k));
      assert k in fronts;
      assert i > 0 ==> !Precedes(history, qs[k][i], qs[k][0]);
    }
  }

  lemma {:induction false} LeastCall(history: seq<Op>, qs: Queues, fronts: set<string>) returns (key: string)
    requires fronts != {} && forall k :: k in fronts ==> k in qs && qs[k] != [] && qs[k][0] < |history|
    ensures key in fronts
    ensures forall k :: k in fronts ==> history[qs[key][0]].call <= history[qs[k][0]].call
    decreases fronts
  {
    key :| key in fronts;
    var rest := fronts - {key};
    if rest != {} {
      var best := LeastCall(history, qs, rest);
      var first := key;
      if history[qs[best][0]].call < history[qs[key][0]].call {
        key := best;
      }
      forall k | k in fronts ensures history[qs[key][0]].call <= history[qs[k][0]].call {
        assert k == first || k in rest;
      }
    } else {
      assert forall k :: k in fronts ==> k == key || k in rest;
    }
  }

  ghost predicate Merged(history: seq<Op>, qs: Queues, store: map<string, string>, order: seq<nat>) {
    && Distinct(order) && Within(order, |history|)
    && Elements(order) == Queued(qs)
    && (forall i, j :: 0 <= i < j < |order| ==> !Precedes(history, order[j], order[i]))
    && Accepts(StoreModel, history, store, order)
  }

  /** Orders of the keys merge into one order of the store. */
  lemma {:induction false} Merge(history: seq<Op>, qs: Queues, store: map<string, string>) returns (order: seq<nat>)
    requires Mergeable(history, qs, store)
    requires forall x :: 0 <= x < |history| ==> history[x].call <= history[x].ret
    ensures Merged(history, qs, store, order)
    decreases |Queued(qs)|
  {
    hide Mergeable, Queued, StoreStep, Merged, Precedes;
    if Queued(qs) == {} {
      order := [];
      MergedNil(history, qs, store);
    } else {
      var key := EarliestFront(history, qs, store);
      TakeFront(history, qs, store, key);
      var qs' := qs[key := qs[key][1..]];
      var rest := Merge(history, qs', StepAt(StoreModel, history, store, qs[key][0]).1);
      order := [qs[key][0]] + rest;
      MergedFront(history, qs, qs', store, qs[key][0], rest);
    }
  }

  lemma MergedNil(history: seq<Op>, qs: Queues, store: map<string, string>)
    requires Queued(qs) == {}
    ensures Merged(history, qs, store, [])
  {
  }

  lemma MergedFront(history: seq<Op>, qs: Queues, qs': Queues, store: map<string, string>, x: nat, rest: seq<nat>)
    requires x < |history| && StepAt(StoreModel, history, store, x).0
    requires Merged(history, qs', StepAt(StoreModel, history, store, x).1, rest)
    requires x !in Queued(qs') && Queued(qs) == Queued(qs') + {x}
    requires forall y :: y in Queued(qs) ==> y < |history| && !Precedes(history, y, x)
    ensures Merged(history, qs, store, [x] + rest)
  {
    hide Queued;
    assert x !in rest by { assert x !in Elements(rest); }
    MergedCons(history, store, x, rest);
  }

  lemma MergedCons(history: seq<Op>, store: map<string, string>, x: nat, rest: seq<nat>)
    requires x < |history| && x !in rest && Distinct(rest) && Within(rest, |history|)
    requires StepAt(StoreModel, history, store, x).0
    requires Accepts(StoreModel, history, StepAt(StoreModel, history, store, x).1, rest)
    requires forall i, j :: 0 <= i < j < |rest| ==> !Precedes(history, rest[j], rest[i])
    requires forall y :: y in Elements(rest) ==> !Precedes(history, y, x)
    ensures var order := [x] + rest;
      && Distinct(order) && Within(order, |history|) && Elements(order) == {x} + Elements(rest)
      && (forall i, j :: 0 <= i < j < |order| ==> !Precedes(history, order[j], order[i]))
      && Accepts(StoreModel, history, store, order)
  {
    var order := [x] + rest;
    assert order[1..] == rest;
    forall i, j | 0 <= i < j < |order| ensures !Precedes(history, order[j], order[i]) && order[i] != order[j] {
      assert order[j] == rest[j - 1] && order[j] in Elements(rest);
      if i > 0 { assert order[i] == rest[i - 1]; }
    }
  }

  lemma TakeFront(history: seq<Op>, qs: Queues, store: map<string, string>, key: string)
    requires Mergeable(history, qs, store)
    requires key in qs && qs[key] != [] && qs[key][0] < |history|
    ensures var qs' := qs[key := qs[key][1..]];
      && StepAt(StoreModel, history, store, qs[key][0]).0
      && Mergeable(history, qs', StepAt(StoreModel, history, store, qs[key][0]).1)
      && qs[key][0] !in Queued(qs') && Queued(qs) == Queued(qs') + {qs[key][0]} && |Queued(qs')| < |Queued(qs)|
  {
    TakeFrontRuns(history, qs, store, key);
    TakeFrontQueued(history, qs, store, key);
  }

  lemma TakeFrontRuns(history: seq<Op>, qs: Queues, store: map<string, string>, key: string)
    requires Mergeable(history, qs, store)
    requires key in qs && qs[key] != [] && qs[key][0] < |history|
    ensures StepAt(StoreModel, history, store, qs[key][0]).0
    ensures Mergeable(history, qs[key := qs[key][1..]], StepAt(StoreModel, history, store, qs[key][0]).1)
  {
    var x := qs[key][0];
    var q := qs[key];
    assert QueueOk(history, key, q, Lookup(store, key));
    var (ok, store') := StepAt(StoreModel, history, store, x);
    KeySeesStore(store, history[x].input, history[x].output, key);
    assert StepAt(KvModel, history, Lookup(store, key), x) == (true, Lookup(store', key));
    QueueTail(history, key, q, Lookup(store, key));
    var qs' := qs[key := q[1..]];
    hide QueueOk;
    forall k | k in qs' ensures QueueOk(history, k, qs'[k], Lookup(store', k)) {
      assert QueueOk(history, k, qs[k], Lookup(store, k));
      KeySeesStore(store, history[x].input, history[x].output, k);
    }
  }

  lemma QueueTail(history: seq<Op>, key: string, q: seq<nat>, value: string)
    requires QueueOk(history, key, q, value) && q != []
    ensures QueueOk(history, key, q[1..], StepAt(KvModel, history, value, q[0]).1)
  {
  }

  lemma TakeFrontQueued(history: seq<Op>, qs: Queues, store: map<string, string>, key: string)
    requires Mergeable(history, qs, store)
    requires key in qs && qs[key] != []
    ensures var x := qs[key][0]; var qs' := qs[key := qs[key][1..]];
      x !in Queued(qs') && Queued(qs) == Queued(qs') + {x} && |Queued(qs')| < |Queued(qs)|
  {
    var x := qs[key][0];
    var q := qs[key];
    var qs' := qs[key := q[1..]];
    forall y | y in Queued(qs') ensures y != x && y in Queued(qs) {
      var k, i :| k in qs' && 0 <= i < |qs'[k]| && qs'[k][i] == y;
      assert QueueOk(history, k, qs[k], Lookup(store, k)) && QueueOk(history, key, q, Lookup(store, key));
      if k == key {
        assert q[i + 1] == y;
      } else {
        assert qs[k][i] == y;
      }
    }
    hide QueueOk, Mergeable;
    forall y | y in Queued(qs) && y != x ensures y in Queued(qs') {
      var k, i :| k in qs && 0 <= i < |qs[k]| && qs[k][i] == y;
      if k == key {
        assert qs'[k][i - 1] == y;
      } else {
        assert qs'[k][i] == y;
      }
    }
    assert q[0] == x;
    assert Queued(qs) == Queued(qs') + {x};
  }

  /** Linearizations of every key give one of the store. */
  lemma PartsGiveWhole(history: seq<Op>)
    requires forall key :: key in Keys(history) ==> Linearizable(KvModel, OnKey(history, key))
    requires forall x :: 0 <= x < |history| ==> history[x].call <= history[x].ret
    ensures Linearizable(StoreModel, history)
  {
    var qs := CollectOrders(history, Keys(history));
    assert Queued(qs) == Iota(|history|) by {
      forall x | 0 <= x < |history| ensures x in Queued(qs) {
        var k := history[x].input.key;
        assert k in qs && x in qs[k];
        assert qs[k][Position(qs[k], x)] == x;
      }
    }
    var order := Merge(history, qs, map[]);
    ElementsCount(order);
    assert Linearization(StoreModel, history, order);
  }

  lemma {:induction false} CollectOrders(history: seq<Op>, keys: set<string>) returns (qs: Queues)
    requires forall key :: key in keys ==> Linearizable(KvModel, OnKey(history, key))
    ensures qs.Keys == keys
    ensures forall key :: key in keys ==> KeyOrder(history, key, qs[key])
    decreases keys
  {
    if keys == {} {
      qs := map[];
    } else {
      var key :| key in keys;
      var local :| Linearization(KvModel, OnKey(history, key), local);
      var global := PartToWhole(history, key, local);
      var rest := CollectOrders(history, keys - {key});
      qs := rest[key := global];
    }
  }

  /** The store's history is linearizable exactly when every key's is. */
  lemma LocalityTheorem(history: seq<Op>)
    requires forall x :: 0 <= x < |history| ==> history[x].call <= history[x].ret
    ensures Linearizable(StoreModel, history) <==>
            forall key :: key in Keys(history) ==> Linearizable(KvModel, OnKey(history, key))
  {
    if Linearizable(StoreModel, history) {
      forall key | key in Keys(history) ensures Linearizable(KvModel, OnKey(history, key)) {
        WholeGivesParts(history, key);
      }
    }
    if forall key :: key in Keys(history) ==> Linearizable(KvModel, OnKey(history, key)) {
      PartsGiveWhole(history);
    }
  }
}
