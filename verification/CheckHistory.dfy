/** The checker end to end: from operations with times to a verdict and a report. */
module CheckHistory {
  import opened Linearizability
  import opened Search
  import opened Sorting
  import opened Entries
  import opened Checker
  import opened Kv
  import KvValues
  import opened Locality
  import P = Parallel

  ghost predicate Timely<I, O>(history: seq<Operation<I, O>>) {
    forall i :: 0 <= i < |history| ==> history[i].call <= history[i].ret
  }

  lemma SameRecords<S, I, O>(m: Model<S, I, O>, history: seq<Operation<I, O>>, ops: seq<Operation<I, O>>, longest: Longest)
    requires SamePrecedence(history, ops)
    ensures RecordsValid(m, ops, longest) <==> RecordsValid(m, history, longest)
    ensures Maximal(m, ops, longest) <==> Maximal(m, history, longest)
  {
    hide PartialLinearization;
    SameLinearizations(m, history, ops);
  }

  /** One partition: number and sort its entries, then search. */
  method CheckPart<S(==,!new), I(!new), O(!new)>(m: Model<S, I, O>, part: seq<Operation<I, O>>, computePartial: bool, kill: nat -> bool)
    returns (ok: bool, longest: Longest, entries: seq<Entry<I, O>>, ghost killed: bool)
    requires Congruent(m) && Timely(part)
    ensures TimeSorted(part, entries)
    ensures killed ==> !ok && exists i :: kill(i)
    ensures !killed ==> (ok <==> Linearizable(m, part))
    ensures RecordsValid(m, part, longest)
    ensures !killed && computePartial ==> Maximal(m, part, longest)
  {
    hide Congruent, Encodes, TimeSorted, SamePrecedence, RecordsValid, Maximal, Linearizable;
    entries := MakeEntries(part);
    ghost var ops := SortedEncodes(part, entries);
    SameLinearizations(m, part, ops);
    ok, longest, killed := CheckSingle(m, entries, computePartial, kill, ops);
    SameRecords(m, part, ops, longest);
  }

  lemma OnKeyTimely(history: seq<Op>, key: string)
    requires Timely(history)
    ensures Timely(OnKey(history, key))
  {
    var idx := Places(history, key);
  }

  /** The check of a key/value history without a timeout: the searches of all the keys,
      none of them interrupted. */
  method CheckOperations(history: seq<Op>) returns (ok: bool)
    requires |history| > 0 && Timely(history)
    ensures ok <==> Linearizable(StoreModel, history)
    ensures ok <==> exists order :: KvValues.Truthful(history, order)
  {
    KvValues.LinearizableIffTruthful(history);
    hide KvValues.Truthful;
    hide Timely, Linearizable, OnKey, Keys, Congruent, RecordsValid, Maximal, TimeSorted, InOrder;
    var parts := Partition(history);
    ghost var keys :| SplitBy(history, keys, parts);
    KvModelCongruent();
    ok := true;
    for i := 0 to |parts|
      invariant ok <==> forall j :: 0 <= j < i ==> Linearizable(KvModel, parts[j])
    {
      OnKeyTimely(history, keys[i]);
      var found, longest, entries, killed := CheckPart(KvModel, parts[i], false, _ => false);
      ok := ok && found;
    }
    PartsDecide(history, parts, keys);
  }

  /** The parts a history splits into decide it. */
  lemma PartsDecide(history: seq<Op>, parts: seq<seq<Op>>, keys: seq<string>)
    requires Timely(history) && SplitBy(history, keys, parts)
    ensures Linearizable(StoreModel, history) <==> forall j :: 0 <= j < |parts| ==> Linearizable(KvModel, parts[j])
  {
    LocalityTheorem(history);
    hide Linearizable, Keys, OnKey;
    if forall j :: 0 <= j < |parts| ==> Linearizable(KvModel, parts[j]) {
      forall key | key in Keys(history) ensures Linearizable(KvModel, OnKey(history, key)) {
        assert key in keys;
        var i := Position(keys, key);
        assert parts[i] == OnKey(history, key);
      }
    }
    if forall key :: key in Keys(history) ==> Linearizable(KvModel, OnKey(history, key)) {
      forall j | 0 <= j < |parts| ensures Linearizable(KvModel, parts[j]) {
        assert keys[j] in keys;
      }
    }
  }

  /** With the searches run side by side: whatever the arrival order and whenever a timeout
      fires, Ok means the history of the whole store is linearizable, Illegal means it is
      not, and without a timeout the verdict is Ok exactly when it is. */
  lemma VerdictDecides(history: seq<Op>, parts: seq<seq<Op>>, keys: seq<string>, c: P.Setup, run: seq<P.Pool>, k: nat)
    requires Timely(history) && SplitBy(history, keys, parts)
    requires |c.truth| == |parts| && forall i :: 0 <= i < |parts| ==> (c.truth[i] <==> Linearizable(KvModel, parts[i]))
    requires P.IsRun(c, run) && k < |run| && run[k].phase.Returned?
    ensures run[k].phase.verdict == P.Ok ==> Linearizable(StoreModel, history)
    ensures run[k].phase.verdict == P.Illegal ==> !Linearizable(StoreModel, history)
    ensures run[k].phase.verdict == P.Unknown ==> c.hasTimeout
    ensures !c.hasTimeout ==> (run[k].phase.verdict == P.Ok <==> Linearizable(StoreModel, history))
  {
    PartsDecide(history, parts, keys);
    P.VerdictSound(c, run, k);
    hide Linearizable;
    if P.AllTrue(c) {
      forall j | 0 <= j < |parts| ensures Linearizable(KvModel, parts[j]) { assert c.truth[j]; }
    }
  }
}
