/** The key/value model: a single key's value as the checker's state, histories split by
    key, and why the parts decide the whole. */
module Kv {
  import opened Linearizability
  import opened Search
  import opened Sorting

  /** op 0 is get, 1 put, 2 append, anything else append that returns the old value. */
  datatype KvInput = KvInput(op: nat, key: string, value: string)

  datatype KvOutput = KvOutput(value: string)

  type Op = Operation<KvInput, KvOutput>

  function Step(state: string, inp: KvInput, out: KvOutput): (bool, string) {
    if inp.op == 0 then (out.value == state, state)
    else if inp.op == 1 then (true, inp.value)
    else if inp.op == 2 then (true, state + inp.value)
    else (out.value == state, state + inp.value)
  }

  /** The model the checker runs on the operations of one key. */
  const KvModel: Model<string, KvInput, KvOutput> := Model("", Step, (s, t) => s == t)

  lemma KvModelCongruent()
    ensures Congruent(KvModel)
  {
  }

  /** A key that was never written holds the empty string. */
  function Lookup(store: map<string, string>, key: string): string {
    if key in store then store[key] else ""
  }

  /** The whole store, keys and all: what each operation says of the map and does to it. */
  function StoreStep(store: map<string, string>, inp: KvInput, out: KvOutput): (bool, map<string, string>) {
    var was := Lookup(store, inp.key);
    match inp.op
    case 0 => (out.value == was, store)
    case 1 => (true, store[inp.key := inp.value])
    case 2 => (true, store[inp.key := was + inp.value])
    case _ => (out.value == was, store[inp.key := was + inp.value])
  }

  const StoreModel: Model<map<string, string>, KvInput, KvOutput> := Model(map[], StoreStep, (s, t) => s == t)

  // ---------------------------------------------------------------------------
  // Partitioning.

  /** The operations on key, in the order of the history. */
  function OnKey(history: seq<Op>, key: string): seq<Op> {
    if history == [] then []
    else
      var n := |history| - 1;
      OnKey(history[..n], key) + if history[n].input.key == key then [history[n]] else []
  }

  function Keys(history: seq<Op>): set<string> {
    set i | 0 <= i < |history| :: history[i].input.key
  }

  /** Dictionary order on strings. */
  predicate LexLeq(a: string, b: string) {
    a == [] || (b != [] && (a[0] < b[0] || (a[0] == b[0] && LexLeq(a[1..], b[1..]))))
  }

  lemma {:induction false} LexTotal(a: string, b: string)
    ensures LexLeq(a, b) || LexLeq(b, a)
  {
    if a != [] && b != [] && a[0] == b[0] { LexTotal(a[1..], b[1..]); }
  }

  lemma {:induction false} LexTransitive(a: string, b: string, c: string)
    requires LexLeq(a, b) && LexLeq(b, c)
    ensures LexLeq(a, c)
  {
    if a != [] && a[0] == b[0] && b[0] == c[0] { LexTransitive(a[1..], b[1..], c[1..]); }
  }

  lemma LexIsPreorder()
    ensures TotalPreorder(LexLeq)
  {
    forall a, b ensures LexLeq(a, b) || LexLeq(b, a) { LexTotal(a, b); }
    forall a, b, c | LexLeq(a, b) && LexLeq(b, c) ensures LexLeq(a, c) { LexTransitive(a, b, c); }
  }

  /** The strings are the same up to k, and a ends there or has the lesser character. */
  ghost predicate LessAt(a: string, b: string, k: nat) {
    k <= |a| && k <= |b| && a[..k] == b[..k] && (k == |a| || (k < |b| && a[k] < b[k]))
  }

  lemma HeadsAgree(a: string, b: string, k: nat)
    requires LessAt(a, b, k) && k > 0
    ensures b != [] && a[0] == b[0]
  {
    assert a[..k][0] == b[..k][0];
  }

  /** The order is that of a dictionary: the first difference decides, and a prefix comes first. */
  lemma {:induction false} LexIsDictionary(a: string, b: string)
    ensures LexLeq(a, b) <==> exists k: nat :: LessAt(a, b, k)
  {
    if a == [] {
      assert LessAt(a, b, 0);
    } else if b == [] || a[0] != b[0] {
      if b != [] && a[0] < b[0] { assert LessAt(a, b, 0); }
      if k: nat :| LessAt(a, b, k) {
        if k > 0 { HeadsAgree(a, b, k); }
      }
    } else {
      LexIsDictionary(a[1..], b[1..]);
      if k: nat :| LessAt(a[1..], b[1..], k) {
        assert a[..k + 1] == [a[0]] + a[1..][..k] && b[..k + 1] == [b[0]] + b[1..][..k];
        assert LessAt(a, b, k + 1);
      }
      if k: nat :| LessAt(a, b, k) {
        assert k > 0;
        assert a[1..][..k - 1] == a[..k][1..] && b[1..][..k - 1] == b[..k][1..];
        assert LessAt(a[1..], b[1..], k - 1);
      }
    }
  }

  /** One part for each key that occurs, in the order of the keys, each part in the order of
      the history. */
  ghost predicate SplitBy(history: seq<Op>, keys: seq<string>, parts: seq<seq<Op>>) {
    && |parts| == |keys| && Distinct(keys) && InOrder(LexLeq, keys)
    && (forall k :: k in keys <==> k in Keys(history))
    && forall i :: 0 <= i < |keys| ==> parts[i] == OnKey(history, keys[i])
  }

  /** Splits a history by key. */
  method Partition(history: seq<Op>) returns (parts: seq<seq<Op>>)
    ensures exists keys :: SplitBy(history, keys, parts)
  {
    var m := GroupByKey(history);
    var sorted := SortedKeys(m);
    parts := [];
    hide Keys, OnKey, InOrder;
    for i := 0 to |sorted|
      invariant |parts| == i && forall j :: 0 <= j < i ==> parts[j] == OnKey(history, sorted[j])
    {
      assert sorted[i] in m;
      parts := parts + [m[sorted[i]]];
    }
    assert SplitBy(history, sorted, parts);
  }

  method GroupByKey(history: seq<Op>) returns (m: map<string, seq<Op>>)
    ensures forall k :: k in m <==> k in Keys(history)
    ensures forall k :: k in m ==> m[k] == OnKey(history, k)
  {
    m := map[];
    for i := 0 to |history|
      invariant forall k :: k in m <==> k in Keys(history[..i])
      invariant forall k :: k in m ==> m[k] == OnKey(history[..i], k)
      invariant forall k :: k !in m ==> OnKey(history[..i], k) == []
    {
      var v := history[i];
      var key := v.input.key;
      KeysSnoc(history, i);
      assert history[..i + 1][..i] == history[..i];
      hide Keys;
      m := m[key := (if key in m then m[key] else []) + [v]];
    }
    assert history[..|history|] == history;
  }

  lemma KeysSnoc(history: seq<Op>, i: nat)
    requires i < |history|
    ensures Keys(history[..i + 1]) == Keys(history[..i]) + {history[i].input.key}
  {
    forall k | k in Keys(history[..i]) ensures k in Keys(history[..i + 1]) {
      var j :| 0 <= j < i && history[..i][j].input.key == k;
      assert history[..i + 1][j].input.key == k;
    }
    assert history[..i + 1][i].input.key == history[i].input.key;
    forall k | k in Keys(history[..i + 1]) ensures k in Keys(history[..i]) + {history[i].input.key} {
      var j :| 0 <= j < i + 1 && history[..i + 1][j].input.key == k;
      if j < i { assert history[..i][j].input.key == k; }
    }
  }

  method SortedKeys(m: map<string, seq<Op>>) returns (keys: seq<string>)
    ensures Distinct(keys) && InOrder(LexLeq, keys)
    ensures forall k :: k in keys <==> k in m
  {
    keys := [];
    var rest := m.Keys;
    while rest != {}
      invariant rest <= m.Keys && Distinct(keys)
      invariant forall k :: k in keys <==> k in m && k !in rest
      decreases |rest|
    {
      var k :| k in rest;
      keys := keys + [k];
      rest := rest - {k};
    }
    LexIsPreorder();
    var sorted := SortBy(LexLeq, keys);
    DistinctKept(keys, sorted);
    forall k ensures k in sorted <==> k in keys {
      assert k in multiset(sorted) <==> k in multiset(keys);
    }
    keys := sorted;
  }
}
