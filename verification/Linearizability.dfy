/** What the checker decides: histories of operations, sequential models, and the
    orders in which a model may explain a history. */
module Linearizability {

  /** A sequential specification: an initial state, a step that accepts or refuses an
      (input, output) pair, and an equality on states. */
  datatype Model<!S, !I, !O> = Model(init: S, step: (S, I, O) -> (bool, S), equal: (S, S) -> bool)

  datatype Operation<I, O> = Operation(clientId: int, input: I, call: int, output: O, ret: int)

  /** What the search needs of `equal`: it relates every state to itself, and related
      states accept the same operations and stay related. */
  ghost predicate Congruent<S(!new), I(!new), O(!new)>(m: Model<S, I, O>) {
    && (forall s :: m.equal(s, s))
    && (forall s, t, i, o {:trigger m.equal(s, t), m.step(s, i, o)} ::
          m.equal(s, t) ==>
            && m.step(s, i, o).0 == m.step(t, i, o).0
            && (m.step(s, i, o).0 ==> m.equal(m.step(s, i, o).1, m.step(t, i, o).1)))
  }

  function StepAt<S, I, O>(m: Model<S, I, O>, ops: seq<Operation<I, O>>, s: S, x: nat): (bool, S)
    requires x < |ops|
  {
    m.step(s, ops[x].input, ops[x].output)
  }

  /** Operation a finished before operation b began. */
  predicate Precedes<I, O>(ops: seq<Operation<I, O>>, a: nat, b: nat)
    requires a < |ops| && b < |ops|
  {
    ops[a].ret < ops[b].call
  }

  /** The model accepts the operations in this order, starting from s. */
  predicate Accepts<S, I, O>(m: Model<S, I, O>, ops: seq<Operation<I, O>>, s: S, order: seq<nat>)
    requires Within(order, |ops|)
  {
    order == [] ||
    (StepAt(m, ops, s, order[0]).0 && Accepts(m, ops, StepAt(m, ops, s, order[0]).1, order[1..]))
  }

  predicate Within(xs: seq<nat>, n: nat) {
    forall i :: 0 <= i < |xs| ==> xs[i] < n
  }

  ghost predicate Distinct<T>(xs: seq<T>) {
    forall i, j :: 0 <= i < j < |xs| ==> xs[i] != xs[j]
  }

  /** order is a complete linearization: every operation once, accepted step by step,
      and never an operation ahead of one that finished before it began. */
  ghost predicate Linearization<S, I, O>(m: Model<S, I, O>, ops: seq<Operation<I, O>>, order: seq<nat>) {
    && |order| == |ops|
    && Distinct(order)
    && Within(order, |ops|)
    && (forall i, j :: 0 <= i < j < |order| ==> !Precedes(ops, order[j], order[i]))
    && Accepts(m, ops, m.init, order)
  }

  ghost predicate Linearizable<S, I, O>(m: Model<S, I, O>, ops: seq<Operation<I, O>>) {
    exists order :: Linearization(m, ops, order)
  }

  /** order is a partial linearization: whatever finished before an operation in it
      began stands earlier in it. */
  ghost predicate PartialLinearization<S, I, O>(m: Model<S, I, O>, ops: seq<Operation<I, O>>, order: seq<nat>) {
    && Distinct(order)
    && Within(order, |ops|)
    && (forall k, j :: 0 <= k < |order| && 0 <= j < |ops| && Precedes(ops, j, order[k]) ==> j in order[..k])
    && Accepts(m, ops, m.init, order)
  }

  // ---------------------------------------------------------------------------
  // The same notion, one operation at a time: what may follow a set of finished
  // operations. This is the shape in which the search meets it.

  /** Nothing outside done had to come before x. */
  ghost predicate Minimal<I, O>(ops: seq<Operation<I, O>>, done: set<nat>, x: nat)
    requires x < |ops|
  {
    forall j :: 0 <= j < |ops| && j !in done ==> !Precedes(ops, j, x)
  }

  /** tau may follow, in this order, once the operations in done led to s. */
  ghost predicate Extends<S, I, O>(m: Model<S, I, O>, ops: seq<Operation<I, O>>, done: set<nat>, s: S, tau: seq<nat>)
    decreases |tau|
  {
    tau == [] ||
    (&& tau[0] < |ops| && tau[0] !in done
     && Minimal(ops, done, tau[0])
     && StepAt(m, ops, s, tau[0]).0
     && Extends(m, ops, done + {tau[0]}, StepAt(m, ops, s, tau[0]).1, tau[1..]))
  }

  /** The ids 0, ..., n-1. */
  function Iota(n: nat): (ids: set<nat>)
    ensures |ids| == n
    ensures forall x :: x in ids <==> 0 <= x < n
  {
    if n == 0 then {} else Iota(n - 1) + {n - 1}
  }

  function Elements(xs: seq<nat>): set<nat> {
    set x | x in xs
  }

  /** The state tau leads to. */
  function After<S, I, O>(m: Model<S, I, O>, ops: seq<Operation<I, O>>, s: S, tau: seq<nat>): S
    requires Within(tau, |ops|)
  {
    if tau == [] then s else After(m, ops, StepAt(m, ops, s, tau[0]).1, tau[1..])
  }

  ghost predicate Orderly<I, O>(ops: seq<Operation<I, O>>, done: set<nat>, tau: seq<nat>) {
    && Distinct(tau)
    && Within(tau, |ops|)
    && (forall x :: x in tau ==> x !in done)
    && (forall k :: 0 <= k < |tau| ==> Minimal(ops, done + Elements(tau[..k]), tau[k]))
  }

  lemma {:induction false} ExtendsIsOrderly<S, I, O>(m: Model<S, I, O>, ops: seq<Operation<I, O>>, done: set<nat>, s: S, tau: seq<nat>)
    requires Extends(m, ops, done, s, tau)
    ensures Orderly(ops, done, tau)
    ensures Accepts(m, ops, s, tau)
    decreases |tau|
  {
    if tau != [] {
      var d := done + {tau[0]};
      ExtendsIsOrderly(m, ops, d, StepAt(m, ops, s, tau[0]).1, tau[1..]);
      forall k | 0 <= k < |tau| ensures tau[k] < |ops| {
        if k > 0 { assert tau[1..][k-1] < |ops|; }
      }
      forall k | 0 <= k < |tau| ensures Minimal(ops, done + Elements(tau[..k]), tau[k]) {
        if k == 0 {
          assert done + Elements(tau[..0]) == done;
        } else {
          assert Minimal(ops, d + Elements(tau[1..][..k-1]), tau[1..][k-1]);
          assert tau[..k] == [tau[0]] + tau[1..][..k-1];
          assert done + Elements(tau[..k]) == d + Elements(tau[1..][..k-1]);
        }
      }
      forall x | x in tau ensures x !in done {
        if x != tau[0] { assert x in tau[1..]; }
      }
      forall i, j | 0 <= i < j < |tau| ensures tau[i] != tau[j] {
        assert tau[1..][j-1] in tau[1..];
        if i > 0 { assert tau[1..][i-1] != tau[1..][j-1]; }
      }
    }
  }

  lemma {:induction false} OrderlyExtends<S, I, O>(m: Model<S, I, O>, ops: seq<Operation<I, O>>, done: set<nat>, s: S, tau: seq<nat>)
    requires Orderly(ops, done, tau)
    requires Accepts(m, ops, s, tau)
    ensures Extends(m, ops, done, s, tau)
    decreases |tau|
  {
    if tau != [] {
      var d := done + {tau[0]};
      assert done + Elements(tau[..0]) == done;
      assert Minimal(ops, done, tau[0]);
      forall k | 0 <= k < |tau[1..]| ensures Minimal(ops, d + Elements(tau[1..][..k]), tau[1..][k]) {
        assert Minimal(ops, done + Elements(tau[..k+1]), tau[k+1]);
        assert tau[..k+1] == [tau[0]] + tau[1..][..k];
        assert done + Elements(tau[..k+1]) == d + Elements(tau[1..][..k]);
      }
      forall x | x in tau[1..] ensures x !in d {
        var k :| 0 <= k < |tau[1..]| && tau[1..][k] == x;
        assert tau[0] != tau[k+1];
      }
      OrderlyExtends(m, ops, d, StepAt(m, ops, s, tau[0]).1, tau[1..]);
    }
  }

  /** The step-by-step form is exactly a partial linearization. */
  lemma ExtendsIffPartial<S, I, O>(m: Model<S, I, O>, ops: seq<Operation<I, O>>, order: seq<nat>)
    ensures Extends(m, ops, {}, m.init, order) <==> PartialLinearization(m, ops, order)
  {
    if Extends(m, ops, {}, m.init, order) {
      ExtendsIsOrderly(m, ops, {}, m.init, order);
      forall k, j | 0 <= k < |order| && 0 <= j < |ops| && Precedes(ops, j, order[k]) ensures j in order[..k] {
        assert Minimal(ops, {} + Elements(order[..k]), order[k]);
      }
    }
    if PartialLinearization(m, ops, order) {
      assert Orderly(ops, {}, order);
      OrderlyExtends(m, ops, {}, m.init, order);
    }
  }

  lemma DistinctCover(order: seq<nat>, n: nat)
    requires Distinct(order) && Within(order, n)
    ensures |Elements(order)| == |order| <= n
    ensures |order| == n ==> forall x :: 0 <= x < n ==> x in order
  {
    ElementsCount(order);
    assert Elements(order) <= Iota(n);
    SubsetCount(Elements(order), Iota(n));
    if |order| == n {
      forall x | 0 <= x < n ensures x in order { assert x in Iota(n); }
    }
  }

  lemma {:induction false} ElementsCount(order: seq<nat>)
    requires Distinct(order)
    ensures |Elements(order)| == |order|
  {
    if order != [] {
      var k := |order| - 1;
      ElementsCount(order[..k]);
      assert Elements(order) == Elements(order[..k]) + {order[k]};
      assert order[k] !in Elements(order[..k]);
    }
  }

  lemma {:induction false} SubsetCount<T>(a: set<T>, b: set<T>)
    requires a <= b
    ensures |a| <= |b|
    ensures |a| == |b| ==> a == b
    decreases a
  {
    if a != {} {
      var x :| x in a;
      SubsetCount(a - {x}, b - {x});
    }
  }

  /** A complete linearization is a partial one that leaves nothing out, provided no
      operation returns before it is called. */
  lemma CompleteIffPartial<S, I, O>(m: Model<S, I, O>, ops: seq<Operation<I, O>>, order: seq<nat>)
    requires forall x :: 0 <= x < |ops| ==> ops[x].call <= ops[x].ret
    ensures Linearization(m, ops, order) <==> (PartialLinearization(m, ops, order) && |order| == |ops|)
  {
    if Linearization(m, ops, order) {
      DistinctCover(order, |ops|);
      forall k, j | 0 <= k < |order| && 0 <= j < |ops| && Precedes(ops, j, order[k]) ensures j in order[..k] {
        assert j in order;
        var i :| 0 <= i < |order| && order[i] == j;
        assert i != k;
        assert i < k;
        assert order[..k][i] == j;
      }
    }
  }

  /** Appending one more minimal, accepted operation. */
  lemma {:induction false} ExtendsSnoc<S, I, O>(m: Model<S, I, O>, ops: seq<Operation<I, O>>, done: set<nat>, s: S, tau: seq<nat>, x: nat)
    requires Extends(m, ops, done, s, tau)
    requires Within(tau, |ops|)
    requires x < |ops| && x !in done && x !in tau
    requires Minimal(ops, done + Elements(tau), x)
    requires StepAt(m, ops, After(m, ops, s, tau), x).0
    ensures Extends(m, ops, done, s, tau + [x])
    ensures After(m, ops, s, tau + [x]) == StepAt(m, ops, After(m, ops, s, tau), x).1
    decreases |tau|
  {
    if tau == [] {
      assert done + Elements(tau) == done;
      assert tau + [x] == [x];
      assert [x][1..] == [];
    } else {
      var d := done + {tau[0]};
      assert tau == [tau[0]] + tau[1..];
      assert done + Elements(tau) == d + Elements(tau[1..]);
      ExtendsSnoc(m, ops, d, StepAt(m, ops, s, tau[0]).1, tau[1..], x);
      assert (tau + [x])[1..] == tau[1..] + [x];
    }
  }

  /** States the model cannot tell apart admit the same extensions. */
  lemma {:induction false} ExtendsCongruent<S(!new), I(!new), O(!new)>(
    m: Model<S, I, O>, ops: seq<Operation<I, O>>, done: set<nat>, s: S, t: S, tau: seq<nat>)
    requires Congruent(m) && m.equal(s, t)
    requires Extends(m, ops, done, s, tau)
    ensures Extends(m, ops, done, t, tau)
    decreases |tau|
  {
    if tau != [] {
      var x := tau[0];
      assert m.step(s, ops[x].input, ops[x].output).0;
      ExtendsCongruent(m, ops, done + {x}, StepAt(m, ops, s, x).1, StepAt(m, ops, t, x).1, tau[1..]);
    }
  }
}
