/** The report of one partition: partial linearizations replayed through the model, and for
    each operation the largest of them it is in. */
module Visualization {
  import opened Linearizability
  import opened Search
  import opened Sorting

  /** The records as a list without repetitions. */
  method Partials(longest: Longest) returns (partials: seq<seq<nat>>)
    ensures Distinct(partials)
    ensures forall p :: p in partials <==> exists x :: 0 <= x < |longest| && longest[x] == Some(p)
  {
    partials := [];
    for i := 0 to |longest|
      invariant Distinct(partials)
      invariant forall p :: p in partials <==> exists x :: 0 <= x < i && longest[x] == Some(p)
    {
      ghost var before := partials;
      if longest[i].Some? && longest[i].value !in partials {
        partials := partials + [longest[i].value];
      }
      forall p ensures p in partials <==> exists x :: 0 <= x < i + 1 && longest[x] == Some(p) {
        if p in before {
          var x :| 0 <= x < i && longest[x] == Some(p);
        }
      }
    }
  }

  predicate NoShorter(a: seq<nat>, b: seq<nat>) {
    |a| >= |b|
  }

  /** The inputs and outputs of the operations, by id. */
  method Values<I, O>(entries: seq<Entry<I, O>>, ghost ops: seq<Operation<I, O>>) returns (callValue: map<nat, I>, returnValue: map<nat, O>)
    requires Encodes(entries, ops)
    ensures forall i :: 0 <= i < |ops| ==> i in callValue && callValue[i] == ops[i].input
    ensures forall i :: 0 <= i < |ops| ==> i in returnValue && returnValue[i] == ops[i].output
  {
    callValue, returnValue := map[], map[];
    for k := 0 to |entries|
      invariant forall i :: 0 <= i < |ops| && ops[i].call < k ==> i in callValue && callValue[i] == ops[i].input
      invariant forall i :: 0 <= i < |ops| && ops[i].ret < k ==> i in returnValue && returnValue[i] == ops[i].output
    {
      match entries[k]
      case CallEntry(id, input, _, _) => callValue := callValue[id := input];
      case ReturnEntry(id, output, _, _) => returnValue := returnValue[id := output];
    }
  }

  /** For each id in one of the first i partials, largest points at one of those it is in,
      and none of those it is in is longer. */
  ghost predicate PointsAtLargest(partials: seq<seq<nat>>, i: nat, largest: map<nat, nat>)
    requires i <= |partials|
  {
    && (forall x :: x in largest ==> largest[x] < i && x in partials[largest[x]])
    && (forall j, x :: 0 <= j < i && x in partials[j] ==> x in largest && |partials[j]| <= |partials[largest[x]]|)
  }

  /** Replays every partial linearization; the model refuses none of the steps. */
  method Replay<S(!new), I(!new), O(!new)>(m: Model<S, I, O>, entries: seq<Entry<I, O>>, partials: seq<seq<nat>>, ghost ops: seq<Operation<I, O>>)
    returns (sorted: seq<seq<nat>>, linearizations: seq<seq<(nat, S)>>, largest: map<nat, nat>)
    requires Encodes(entries, ops)
    requires forall p :: p in partials ==> PartialLinearization(m, ops, p)
    ensures Sorted(NoShorter, partials, sorted)
    ensures |linearizations| == |sorted| && forall i :: 0 <= i < |sorted| ==> Within(sorted[i], |ops|) && Replayed(m, ops, sorted[i], linearizations[i])
    ensures PointsAtLargest(sorted, |sorted|, largest)
  {
    hide Encodes, PartialLinearization;
    var callValue, returnValue := Values(entries, ops);
    sorted := SortBy(NoShorter, partials);
    linearizations := [];
    largest := map[];
    var largestSize: map<nat, nat> := map[];
    for i := 0 to |sorted|
      invariant |linearizations| == i && forall j :: 0 <= j < i ==> Within(sorted[j], |ops|) && Replayed(m, ops, sorted[j], linearizations[j])
      invariant PointsAtLargest(sorted, i, largest)
      invariant Sizes(sorted, largest, largestSize)
    {
      var partial := sorted[i];
      assert partial in multiset(sorted);
      assert partial in partials;
      IsAccepted(m, ops, partial);
      var linearization := ReplayOne(m, callValue, returnValue, partial, ops);
      linearizations := linearizations + [linearization];
      largest, largestSize := Enlarge(sorted, i, largest, largestSize);
    }
  }

  lemma IsAccepted<S, I, O>(m: Model<S, I, O>, ops: seq<Operation<I, O>>, partial: seq<nat>)
    requires PartialLinearization(m, ops, partial)
    ensures Within(partial, |ops|) && Accepts(m, ops, m.init, partial)
  {
  }

  ghost predicate Replayed<S, I, O>(m: Model<S, I, O>, ops: seq<Operation<I, O>>, partial: seq<nat>, steps: seq<(nat, S)>)
    requires Within(partial, |ops|)
  {
    && |steps| == |partial|
    && forall j :: 0 <= j < |partial| ==> steps[j] == (partial[j], After(m, ops, m.init, partial[..j + 1]))
  }

  lemma {:induction false} AfterSnoc<S, I, O>(m: Model<S, I, O>, ops: seq<Operation<I, O>>, s: S, order: seq<nat>, j: nat)
    requires Within(order, |ops|) && j < |order| && Accepts(m, ops, s, order)
    ensures After(m, ops, s, order[..j + 1]) == StepAt(m, ops, After(m, ops, s, order[..j]), order[j]).1
    ensures StepAt(m, ops, After(m, ops, s, order[..j]), order[j]).0
    decreases j
  {
    if j == 0 {
      assert order[..1] == [order[0]] && order[..0] == [];
    } else {
      AfterSnoc(m, ops, StepAt(m, ops, s, order[0]).1, order[1..], j - 1);
      assert order[..j + 1][1..] == order[1..][..j];
      assert order[..j][1..] == order[1..][..j - 1];
    }
  }

  method ReplayOne<S, I, O>(m: Model<S, I, O>, callValue: map<nat, I>, returnValue: map<nat, O>, partial: seq<nat>, ghost ops: seq<Operation<I, O>>)
    returns (steps: seq<(nat, S)>)
    requires forall i :: 0 <= i < |ops| ==> i in callValue && callValue[i] == ops[i].input
    requires forall i :: 0 <= i < |ops| ==> i in returnValue && returnValue[i] == ops[i].output
    requires Within(partial, |ops|) && Accepts(m, ops, m.init, partial)
    ensures Replayed(m, ops, partial, steps)
  {
    var state := m.init;
    steps := [];
    for j := 0 to |partial|
      invariant |steps| == j && state == After(m, ops, m.init, partial[..j])
      invariant forall i :: 0 <= i < j ==> steps[i] == (partial[i], After(m, ops, m.init, partial[..i + 1]))
    {
      var histId := partial[j];
      AfterSnoc(m, ops, m.init, partial, j);
      var (ok, next) := m.step(state, callValue[histId], returnValue[histId]);
      assert ok;
      state := next;
      steps := steps + [(histId, state)];
    }
  }

  ghost predicate Sizes(partials: seq<seq<nat>>, largest: map<nat, nat>, size: map<nat, nat>) {
    && largest.Keys == size.Keys
    && forall x :: x in largest ==> largest[x] < |partials| && size[x] == |partials[largest[x]]|
  }

  /** Enters the i-th partial where it beats what is there. */
  method Enlarge(partials: seq<seq<nat>>, i: nat, largest: map<nat, nat>, size: map<nat, nat>) returns (largest': map<nat, nat>, size': map<nat, nat>)
    requires i < |partials|
    requires PointsAtLargest(partials, i, largest) && Sizes(partials, largest, size)
    ensures PointsAtLargest(partials, i + 1, largest') && Sizes(partials, largest', size')
  {
    hide PointsAtLargest, Partly, Sizes;
    var partial := partials[i];
    largest', size' := largest, size;
    PartlyNone(partials, i, largest, size);
    for j := 0 to |partial|
      invariant Partly(partials, i, j, largest, largest', size')
    {
      var histId := partial[j];
      PartlyNext(partials, i, j, largest, largest', size');
      if (if histId in size' then size'[histId] else 0) < |partial| {
        size' := size'[histId := |partial|];
        largest' := largest'[histId := i];
      }
    }
    PartlyAll(partials, i, largest, largest', size');
  }

  lemma PartlyNone(partials: seq<seq<nat>>, i: nat, largest: map<nat, nat>, size: map<nat, nat>)
    requires i < |partials| && PointsAtLargest(partials, i, largest) && Sizes(partials, largest, size)
    ensures Partly(partials, i, 0, largest, largest, size)
  {
  }

  lemma PartlyAll(partials: seq<seq<nat>>, i: nat, largest: map<nat, nat>, largest': map<nat, nat>, size': map<nat, nat>)
    requires i < |partials| && PointsAtLargest(partials, i, largest) && Partly(partials, i, |partials[i]|, largest, largest', size')
    ensures PointsAtLargest(partials, i + 1, largest') && Sizes(partials, largest', size')
  {
    assert partials[i][..|partials[i]|] == partials[i];
    Enlarged(partials, i, largest, largest');
  }

  /** The i-th partial has been entered for the first j of its operations. */
  ghost predicate Partly(partials: seq<seq<nat>>, i: nat, j: nat, largest: map<nat, nat>, largest': map<nat, nat>, size': map<nat, nat>)
    requires i < |partials| && j <= |partials[i]|
  {
    && Sizes(partials, largest', size')
    && (forall x :: x in largest ==> largest[x] < |partials|)
    && (forall x :: x in largest' ==> largest'[x] <= i && x in partials[largest'[x]])
    && (forall x :: x in largest ==> x in largest' && |partials[largest[x]]| <= |partials[largest'[x]]|)
    && (forall x :: x in partials[i][..j] ==> x in largest' && |partials[i]| <= |partials[largest'[x]]|)
  }

  lemma PartlyNext(partials: seq<seq<nat>>, i: nat, j: nat, largest: map<nat, nat>, largest': map<nat, nat>, size': map<nat, nat>)
    requires i < |partials| && j < |partials[i]| && Partly(partials, i, j, largest, largest', size')
    ensures var x := partials[i][j];
      if (if x in size' then size'[x] else 0) < |partials[i]|
      then Partly(partials, i, j + 1, largest, largest'[x := i], size'[x := |partials[i]|])
      else Partly(partials, i, j + 1, largest, largest', size')
  {
    assert partials[i][..j + 1] == partials[i][..j] + [partials[i][j]];
  }

  lemma Enlarged(partials: seq<seq<nat>>, i: nat, largest: map<nat, nat>, largest': map<nat, nat>)
    requires i < |partials| && PointsAtLargest(partials, i, largest)
    requires forall x :: x in largest' ==> largest'[x] <= i && x in partials[largest'[x]]
    requires forall x :: x in largest ==> x in largest' && |partials[largest[x]]| <= |partials[largest'[x]]|
    requires forall x :: x in partials[i] ==> x in largest' && |partials[i]| <= |partials[largest'[x]]|
    ensures PointsAtLargest(partials, i + 1, largest')
  {
  }

  /** From the records of a finished search: what largest points at for an operation is a
      longest partial linearization with the operation in it, and an operation it says
      nothing about is in none. */
  lemma LargestIsLongest<S, I, O>(m: Model<S, I, O>, ops: seq<Operation<I, O>>, longest: Longest, partials: seq<seq<nat>>, sorted: seq<seq<nat>>, largest: map<nat, nat>)
    requires Maximal(m, ops, longest)
    requires forall p :: p in partials <==> exists x :: 0 <= x < |longest| && longest[x] == Some(p)
    requires Sorted(NoShorter, partials, sorted) && PointsAtLargest(sorted, |sorted|, largest)
    ensures forall x :: x in largest ==> x in sorted[largest[x]] && PartialLinearization(m, ops, sorted[largest[x]])
    ensures forall order, x :: PartialLinearization(m, ops, order) && x in order ==>
              x in largest && |order| <= |sorted[largest[x]]|
  {
    hide PartialLinearization;
    forall p ensures p in sorted <==> p in partials {
      assert p in multiset(sorted) <==> p in multiset(partials);
    }
    forall x | x in largest ensures PartialLinearization(m, ops, sorted[largest[x]]) {
      assert sorted[largest[x]] in partials;
    }
    forall order, x | PartialLinearization(m, ops, order) && x in order
      ensures x in largest && |order| <= |sorted[largest[x]]|
    {
      var p := longest[x].value;
      assert longest[x] == Some(p);
      assert p in sorted && x in p;
      var j :| 0 <= j < |sorted| && sorted[j] == p;
    }
  }
}
