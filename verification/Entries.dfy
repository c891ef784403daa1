/** From operations with times, or from events, to the numbered entries the search reads. */
module Entries {
  import opened Linearizability
  import opened Search
  import opened Sorting

  /** The order of entries: by time, and calls ahead of returns at equal times. */
  predicate Less<I, O>(a: Entry<I, O>, b: Entry<I, O>) {
    if a.time != b.time then a.time < b.time else a.CallEntry? && b.ReturnEntry?
  }

  /** The calls and returns of the operations, in the order of the history. */
  function Unsorted<I, O>(history: seq<Operation<I, O>>): (es: seq<Entry<I, O>>)
    ensures |es| == 2 * |history|
    ensures forall i :: 0 <= i < |history| ==> es[2 * i] == CallOf(history, i) && es[2 * i + 1] == ReturnOf(history, i)
  {
    if history == [] then []
    else
      var n := |history| - 1;
      Unsorted(history[..n]) + [CallOf(history, n), ReturnOf(history, n)]
  }

  function CallOf<I, O>(history: seq<Operation<I, O>>, i: nat): Entry<I, O>
    requires i < |history|
  {
    CallEntry(i, history[i].input, history[i].call, history[i].clientId)
  }

  function ReturnOf<I, O>(history: seq<Operation<I, O>>, i: nat): Entry<I, O>
    requires i < |history|
  {
    ReturnEntry(i, history[i].output, history[i].ret, history[i].clientId)
  }

  predicate NotAfter<I, O>(a: Entry<I, O>, b: Entry<I, O>) {
    !Less(b, a)
  }

  /** es is one of the lists a sort by Less may produce. */
  ghost predicate TimeSorted<I, O>(history: seq<Operation<I, O>>, es: seq<Entry<I, O>>) {
    Sorted(NotAfter, Unsorted(history), es)
  }

  lemma NotAfterIsPreorder<I(!new), O(!new)>()
    ensures TotalPreorder<Entry<I, O>>(NotAfter)
  {
  }

  method MakeEntries<I(!new), O(!new)>(history: seq<Operation<I, O>>) returns (entries: seq<Entry<I, O>>)
    ensures TimeSorted(history, entries)
  {
    entries := [];
    var id := 0;
    while id < |history|
      invariant 0 <= id <= |history| && entries == Unsorted(history[..id])
    {
      var elem := history[id];
      entries := entries + [CallEntry(id, elem.input, elem.call, elem.clientId)];
      entries := entries + [ReturnEntry(id, elem.output, elem.ret, elem.clientId)];
      assert history[..id + 1][..id] == history[..id];
      id := id + 1;
    }
    assert history[..|history|] == history;
    NotAfterIsPreorder<I, O>();
    hide TotalPreorder, InOrder, Less;
    entries := SortBy(NotAfter, entries);
  }

  /** ops keeps the inputs, outputs and precedence of history, whatever its times are. */
  ghost predicate SamePrecedence<I, O>(history: seq<Operation<I, O>>, ops: seq<Operation<I, O>>) {
    && |ops| == |history|
    && (forall i :: 0 <= i < |ops| ==> ops[i].input == history[i].input && ops[i].output == history[i].output)
    && (forall i, j :: 0 <= i < |ops| && 0 <= j < |ops| ==> (Precedes(ops, i, j) <==> Precedes(history, i, j)))
  }

  lemma UnsortedDistinct<I, O>(history: seq<Operation<I, O>>)
    ensures Distinct(Unsorted(history))
  {
    var es := Unsorted(history);
    forall p | 0 <= p < |es| ensures es[p] == if p % 2 == 0 then CallOf(history, p / 2) else ReturnOf(history, p / 2) {
      assert p == 2 * (p / 2) + p % 2;
    }
  }

  /** Where an element of a sequence stands. */
  ghost function Position<T>(xs: seq<T>, x: T): (p: nat)
    requires x in xs
    ensures p < |xs| && xs[p] == x
  {
    var p :| 0 <= p < |xs| && xs[p] == x;
    p
  }

  /** However the sort breaks ties, the entries encode the history: positions replace
      times, and one operation precedes another in positions exactly when it does in
      times. */
  lemma SortedEncodes<I, O>(history: seq<Operation<I, O>>, es: seq<Entry<I, O>>) returns (ops: seq<Operation<I, O>>)
    requires TimeSorted(history, es)
    requires forall i :: 0 <= i < |history| ==> history[i].call <= history[i].ret
    ensures Encodes(es, ops)
    ensures SamePrecedence(history, ops)
  {
    var n := |history|;
    var base := Unsorted(history);
    UnsortedDistinct(history);
    DistinctKept(base, es);
    forall i | 0 <= i < n ensures CallOf(history, i) in es && ReturnOf(history, i) in es {
      assert base[2 * i] in multiset(base) && base[2 * i + 1] in multiset(base);
      assert base[2 * i] in multiset(es) && base[2 * i + 1] in multiset(es);
    }
    ops := seq(n, i requires 0 <= i < n =>
      Operation(history[i].clientId, history[i].input, Position(es, CallOf(history, i)), history[i].output, Position(es, ReturnOf(history, i))));
    PositionsEncode(history, es, ops);
    PositionsPrecede(history, es, ops);
  }

  ghost predicate Positioned<I, O>(history: seq<Operation<I, O>>, es: seq<Entry<I, O>>, ops: seq<Operation<I, O>>) {
    && |ops| == |history|
    && forall i :: 0 <= i < |ops| ==>
         && 0 <= ops[i].call < |es| && 0 <= ops[i].ret < |es|
         && es[ops[i].call] == CallOf(history, i) && es[ops[i].ret] == ReturnOf(history, i)
         && ops[i].input == history[i].input && ops[i].output == history[i].output
  }

  lemma PositionsEncode<I, O>(history: seq<Operation<I, O>>, es: seq<Entry<I, O>>, ops: seq<Operation<I, O>>)
    requires TimeSorted(history, es) && Distinct(es) && |es| == 2 * |history|
    requires Positioned(history, es, ops)
    requires forall i :: 0 <= i < |history| ==> history[i].call <= history[i].ret
    ensures Encodes(es, ops)
  {
    var base := Unsorted(history);
    forall i | 0 <= i < |ops| ensures ops[i].call < ops[i].ret {
      assert es[ops[i].call] != es[ops[i].ret];
      assert ops[i].ret < ops[i].call ==> NotAfter(es[ops[i].ret], es[ops[i].call]);
    }
    forall p | 0 <= p < |es|
      ensures es[p].id < |ops| && p == if es[p].CallEntry? then ops[es[p].id].call else ops[es[p].id].ret
    {
      assert es[p] in multiset(es);
      assert es[p] in multiset(base);
      assert es[p] in base;
      var b := Position(base, es[p]);
      assert b == 2 * (b / 2) + b % 2;
      assert es[p] == CallOf(history, b / 2) || es[p] == ReturnOf(history, b / 2);
    }
  }

  lemma PositionsPrecede<I, O>(history: seq<Operation<I, O>>, es: seq<Entry<I, O>>, ops: seq<Operation<I, O>>)
    requires TimeSorted(history, es)
    requires Positioned(history, es, ops)
    ensures SamePrecedence(history, ops)
  {
    forall i, j | 0 <= i < |ops| && 0 <= j < |ops| ensures Precedes(ops, i, j) <==> Precedes(history, i, j) {
      var p, q := ops[i].ret, ops[j].call;
      if p < q {
        assert NotAfter(es[p], es[q]);
      } else {
        assert es[p] != es[q];
        assert NotAfter(es[q], es[p]);
      }
    }
  }

  /** Linearizations depend on the times only through precedence. */
  lemma SameLinearizations<S, I, O>(m: Model<S, I, O>, history: seq<Operation<I, O>>, ops: seq<Operation<I, O>>)
    requires SamePrecedence(history, ops)
    ensures forall order :: Linearization(m, ops, order) <==> Linearization(m, history, order)
    ensures forall order :: PartialLinearization(m, ops, order) <==> PartialLinearization(m, history, order)
    ensures Linearizable(m, ops) <==> Linearizable(m, history)
  {
    forall order ensures Linearization(m, ops, order) <==> Linearization(m, history, order) {
      if Within(order, |ops|) { SameAccepts(m, history, ops, m.init, order); }
    }
    forall order ensures PartialLinearization(m, ops, order) <==> PartialLinearization(m, history, order) {
      if Within(order, |ops|) { SameAccepts(m, history, ops, m.init, order); }
    }
  }

  lemma {:induction false} SameAccepts<S, I, O>(m: Model<S, I, O>, history: seq<Operation<I, O>>, ops: seq<Operation<I, O>>, s: S, order: seq<nat>)
    requires SamePrecedence(history, ops) && Within(order, |ops|)
    ensures Accepts(m, ops, s, order) <==> Accepts(m, history, s, order)
    decreases |order|
  {
    if order != [] {
      SameAccepts(m, history, ops, StepAt(m, ops, s, order[0]).1, order[1..]);
    }
  }
}
