/** What a history of the key/value store may say, in terms of its writes alone. */
module KvValues {
  import opened Linearizability
  import opened Kv

  /** The k-th operation in the order. */
  function Nth(history: seq<Op>, order: seq<nat>, k: nat): Op
    requires Within(order, |history|) && k < |order|
  {
    history[order[k]]
  }

  predicate Puts(op: Op, key: string) { op.input.op == 1 && op.input.key == key }

  predicate Appends(op: Op, key: string) { op.input.op >= 2 && op.input.key == key }

  /** Gets, and appends that return the old value, tell what they saw. */
  predicate Tells(op: Op) { op.input.op == 0 || op.input.op >= 3 }

  /** The last put to the key before position k, or -1. */
  function LastPut(history: seq<Op>, order: seq<nat>, k: nat, key: string): (p: int)
    requires Within(order, |history|) && k <= |order|
    ensures -1 <= p < k && (p >= 0 ==> Puts(Nth(history, order, p), key))
    ensures forall i: nat :: p < i < k ==> !Puts(Nth(history, order, i), key)
  {
    if k == 0 then -1
    else if Puts(Nth(history, order, k - 1), key) then k - 1
    else LastPut(history, order, k - 1, key)
  }

  /** The values of all appends to the key at positions j, ..., k-1, one after the other. */
  function AppendedIn(history: seq<Op>, order: seq<nat>, j: nat, k: nat, key: string): string
    requires Within(order, |history|) && j <= k <= |order|
  {
    if j == k then ""
    else
      var op := Nth(history, order, k - 1);
      AppendedIn(history, order, j, k - 1, key) + if Appends(op, key) then op.input.value else ""
  }

  /** What the key holds before position k: what the last put wrote, or nothing, and whatever has
      been appended since. */
  function Written(history: seq<Op>, order: seq<nat>, k: nat, key: string): string
    requires Within(order, |history|) && k <= |order|
  {
    var p := LastPut(history, order, k, key);
    (if p < 0 then "" else Nth(history, order, p).input.value) + AppendedIn(history, order, p + 1, k, key)
  }

  lemma WrittenNext(history: seq<Op>, order: seq<nat>, k: nat, key: string)
    requires Within(order, |history|) && k < |order|
    ensures var op := Nth(history, order, k);
      Written(history, order, k + 1, key)
      == if Puts(op, key) then op.input.value
         else if Appends(op, key) then Written(history, order, k, key) + op.input.value
         else Written(history, order, k, key)
  {
    var op := Nth(history, order, k);
    assert op.input.value + "" == op.input.value;
    var p := LastPut(history, order, k, key);
    assert AppendedIn(history, order, p + 1, k, key) + "" == AppendedIn(history, order, p + 1, k, key);
  }

  /** The operation at k, if it tells what it saw, tells what was there. */
  ghost predicate TellsTruth(history: seq<Op>, order: seq<nat>, k: nat)
    requires Within(order, |history|) && k < |order|
  {
    var op := Nth(history, order, k);
    Tells(op) ==> op.output.value == Written(history, order, k, op.input.key)
  }

  ghost predicate Holds(history: seq<Op>, order: seq<nat>, k: nat, store: map<string, string>)
    requires Within(order, |history|) && k <= |order|
  {
    forall key :: Lookup(store, key) == Written(history, order, k, key)
  }

  lemma StoreHolds(history: seq<Op>, order: seq<nat>, k: nat, store: map<string, string>)
    requires Within(order, |history|) && k < |order| && Holds(history, order, k, store)
    ensures var (ok, after) := StepAt(StoreModel, history, store, order[k]);
      (ok <==> TellsTruth(history, order, k)) && Holds(history, order, k + 1, after)
  {
    hide Written;
    var op := Nth(history, order, k);
    assert Lookup(store, op.input.key) == Written(history, order, k, op.input.key);
    var (ok, after) := StepAt(StoreModel, history, store, order[k]);
    forall key ensures Lookup(after, key) == Written(history, order, k + 1, key) {
      WrittenNext(history, order, k, key);
      assert Lookup(store, key) == Written(history, order, k, key);
    }
  }

  lemma {:induction false} TruthFrom(history: seq<Op>, order: seq<nat>, k: nat, store: map<string, string>)
    requires Within(order, |history|) && k <= |order| && Holds(history, order, k, store)
    ensures Accepts(StoreModel, history, store, order[k..]) <==> forall i: nat :: k <= i < |order| ==> TellsTruth(history, order, i)
    decreases |order| - k
  {
    if k < |order| {
      StoreHolds(history, order, k, store);
      var (ok, after) := StepAt(StoreModel, history, store, order[k]);
      TruthFrom(history, order, k + 1, after);
      hide TellsTruth, Holds;
      assert order[k..][1..] == order[k + 1..];
    }
  }

  /** The store's model accepts an order if and only if every get and every returning append in
      it tells exactly what the writes before it on its key left there. */
  lemma AcceptedIffTruthful(history: seq<Op>, order: seq<nat>)
    requires Within(order, |history|)
    ensures Accepts(StoreModel, history, map[], order) <==> forall k: nat :: k < |order| ==> TellsTruth(history, order, k)
  {
    TruthFrom(history, order, 0, map[]);
    assert order[0..] == order;
  }

  /** So linearizability itself can be said without the model: all operations in an order that
      respects real time and in which everyone tells the truth. */
  lemma LinearizableIffTruthful(history: seq<Op>)
    ensures Linearizable(StoreModel, history) <==> exists order :: Truthful(history, order)
  {
    if Linearizable(StoreModel, history) {
      var order :| Linearization(StoreModel, history, order);
      AcceptedIffTruthful(history, order);
      assert Truthful(history, order);
    }
    if order :| Truthful(history, order) {
      AcceptedIffTruthful(history, order);
      assert Linearization(StoreModel, history, order);
    }
  }

  ghost predicate Truthful(history: seq<Op>, order: seq<nat>) {
    && |order| == |history| && Distinct(order) && Within(order, |history|)
    && (forall i, j :: 0 <= i < j < |order| ==> !Precedes(history, order[j], order[i]))
    && forall k: nat :: k < |order| ==> TellsTruth(history, order, k)
  }
}
