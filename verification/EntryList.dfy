/** The history as a doubly linked list of calls and returns, out of which a call and its
    return are lifted and into which they are put back. */
module EntryList {
  import opened Search

  datatype Value<I, O> = Input(input: I) | Output(output: O) | NoValue

  class Node<I, O> {
    const value: Value<I, O>
    const matching: Node?<I, O>  // the return of a call, null in a return
    const id: int
    var next: Node?<I, O>
    var prev: Node?<I, O>

    constructor (value: Value<I, O>, matching: Node?<I, O>, id: int)
      ensures this.value == value && this.matching == matching && this.id == id
      ensures next == null && prev == null
    {
      this.value, this.matching, this.id := value, matching, id;
      this.next, this.prev := null, null;
    }
  }

  /** The nodes of l, each once, are chained in this order in both directions. */
  ghost predicate Linked<I, O>(l: seq<Node<I, O>>)
    reads l
  {
    && AllDifferent(l)
    && (forall i, j :: 0 <= i < |l| && 0 <= j < |l| && j == i + 1 ==> l[i].next == l[j] && l[j].prev == l[i])
    && (|l| > 0 ==> l[0].prev == null && l[|l| - 1].next == null)
  }

  ghost predicate AllDifferent<I, O>(l: seq<Node<I, O>>) {
    forall i, j :: 0 <= i < j < |l| ==> l[i] != l[j]
  }

  /** The i-th node of l, null off either end. */
  ghost function At<I, O>(l: seq<Node<I, O>>, i: int): Node?<I, O> {
    if 0 <= i < |l| then l[i] else null
  }

  /** Puts n in front of mark. */
  method InsertBefore<I, O>(n: Node<I, O>, mark: Node?<I, O>, ghost l: seq<Node<I, O>>, ghost i: nat) returns (r: Node<I, O>)
    requires Linked(l) && i <= |l| && n !in l
    requires mark == At(l, i) && (mark == null ==> l == [])
    requires n.next == null && n.prev == null
    modifies l, n
    ensures r == n
    ensures Linked(l[..i] + [n] + l[i..])
    ensures i == 0 ==> Linked([n] + l)
  {
    if mark != null {
      assert i > 0 ==> mark.prev == l[i-1];
      var beforeMark := mark.prev;
      mark.prev := n;
      n.next := mark;
      if beforeMark != null {
        n.prev := beforeMark;
        beforeMark.next := n;
      }
    }
    assert i == 0 ==> l[..i] + [n] + l[i..] == [n] + l;
    return n;
  }

  method Length<I, O>(n: Node?<I, O>, ghost l: seq<Node<I, O>>) returns (count: nat)
    requires Linked(l) && n == At(l, 0)
    ensures count == |l|
  {
    count := 0;
    var rest := n;
    while rest != null
      invariant count <= |l| && rest == At(l, count)
      decreases |l| - count
    {
      rest := rest.next;
      count := count + 1;
    }
  }

  /** q is the nearest return of p's id after p. */
  ghost predicate NearestReturn<I, O>(h: seq<Entry<I, O>>, p: nat, q: nat)
    requires p < |h|
  {
    && p < q < |h| && h[q].ReturnEntry? && h[q].id == h[p].id
    && forall k :: p < k < q ==> !(h[k].ReturnEntry? && h[k].id == h[p].id)
  }

  /** nodes hold the entries of h from position `from` on, each call pointing at the
      nearest later return of its id, or at nothing when there is none. */
  ghost predicate Holds<I, O>(h: seq<Entry<I, O>>, from: nat, nodes: seq<Node<I, O>>) {
    && from + |nodes| == |h|
    && forall p :: from <= p < |h| ==> HoldsAt(h, from, nodes, p)
  }

  ghost predicate HoldsAt<I, O>(h: seq<Entry<I, O>>, from: nat, nodes: seq<Node<I, O>>, p: nat)
    requires from + |nodes| == |h| && from <= p < |h|
  {
    var n := nodes[p - from];
    && n.id == h[p].id
    && match h[p]
       case ReturnEntry(_, output, _, _) => n.value == Output(output) && n.matching == null
       case CallEntry(_, input, _, _) =>
         && n.value == Input(input)
         && (forall q: nat :: NearestReturn(h, p, q) ==> n.matching == nodes[q - from])
         && ((forall q: nat :: !NearestReturn(h, p, q)) ==> n.matching == null)
  }

  /** returns maps each id to its nearest return at or after position `from`. */
  ghost predicate ReturnsFrom<I, O>(h: seq<Entry<I, O>>, from: nat, nodes: seq<Node<I, O>>, returns_: map<nat, Node<I, O>>)
    requires from + |nodes| == |h|
  {
    && (forall id :: id in returns_ ==> exists q: nat :: IsFirstReturn(h, from, id, q) && returns_[id] == nodes[q - from])
    && (forall id: nat, q: nat :: IsFirstReturn(h, from, id, q) ==> id in returns_)
  }

  ghost predicate IsFirstReturn<I, O>(h: seq<Entry<I, O>>, from: nat, id: nat, q: nat) {
    && from <= q < |h| && h[q].ReturnEntry? && h[q].id == id
    && forall k :: from <= k < q ==> !(h[k].ReturnEntry? && h[k].id == id)
  }

  /** Builds the list from the back. */
  method MakeLinkedEntries<I, O>(entries: seq<Entry<I, O>>) returns (root: Node?<I, O>, ghost nodes: seq<Node<I, O>>)
    ensures Linked(nodes) && root == At(nodes, 0)
    ensures Holds(entries, 0, nodes) && |nodes| == |entries|
    ensures forall k :: 0 <= k < |nodes| ==> fresh(nodes[k])
  {
    root := null;
    nodes := [];
    var match_: map<nat, Node<I, O>> := map[];
    var i := |entries|;
    while i > 0
      invariant 0 <= i <= |entries|
      invariant Linked(nodes) && root == At(nodes, 0)
      invariant Holds(entries, i, nodes)
      invariant ReturnsFrom(entries, i, nodes, match_)
      invariant forall k :: 0 <= k < |nodes| ==> fresh(nodes[k])
    {
      hide Linked, HoldsAt, ReturnsFrom;
      i := i - 1;
      var elem := entries[i];
      ghost var old_ := nodes;
      if elem.ReturnEntry? {
        var entry := new Node(Output(elem.output), null, elem.id);
        var _ := InsertBefore(entry, root, nodes, 0);
        nodes := [entry] + nodes;
        HoldsCons(entries, i, old_, entry, match_);
        match_ := match_[elem.id := entry];
        root := entry;
      } else {
        var matching := if elem.id in match_ then match_[elem.id] else null;
        var entry := new Node(Input(elem.input), matching, elem.id);
        var _ := InsertBefore(entry, root, nodes, 0);
        nodes := [entry] + nodes;
        HoldsCons(entries, i, old_, entry, match_);
        root := entry;
      }
    }
  }

  lemma HoldsCons<I, O>(h: seq<Entry<I, O>>, from: nat, nodes: seq<Node<I, O>>, n: Node<I, O>, returns_: map<nat, Node<I, O>>)
    requires from < |h| && Holds(h, from + 1, nodes) && ReturnsFrom(h, from + 1, nodes, returns_)
    requires n.id == h[from].id
    requires h[from].ReturnEntry? ==> n.value == Output(h[from].output) && n.matching == null
    requires h[from].CallEntry? ==>
               && n.value == Input(h[from].input)
               && n.matching == if h[from].id in returns_ then returns_[h[from].id] else null
    ensures Holds(h, from, [n] + nodes)
    ensures ReturnsFrom(h, from, [n] + nodes, if h[from].ReturnEntry? then returns_[h[from].id := n] else returns_)
  {
    var nodes' := [n] + nodes;
    forall p | from <= p < |h| ensures HoldsAt(h, from, nodes', p) {
      if p > from {
        assert HoldsAt(h, from + 1, nodes, p);
      } else if h[p].CallEntry? {
        forall q: nat | NearestReturn(h, p, q) ensures n.matching == nodes'[q - from] {
          assert IsFirstReturn(h, from + 1, h[p].id, q);
          var r: nat :| IsFirstReturn(h, from + 1, h[p].id, r) && returns_[h[p].id] == nodes[r - (from + 1)];
        }
        if n.matching != null {
          var r: nat :| IsFirstReturn(h, from + 1, h[p].id, r) && returns_[h[p].id] == nodes[r - (from + 1)];
          assert NearestReturn(h, p, r);
        }
      }
    }
    ReturnsCons(h, from, nodes, n, returns_);
  }

  lemma ReturnsCons<I, O>(h: seq<Entry<I, O>>, from: nat, nodes: seq<Node<I, O>>, n: Node<I, O>, returns_: map<nat, Node<I, O>>)
    requires from + 1 + |nodes| == |h| && ReturnsFrom(h, from + 1, nodes, returns_)
    ensures ReturnsFrom(h, from, [n] + nodes, if h[from].ReturnEntry? then returns_[h[from].id := n] else returns_)
  {
    var nodes' := [n] + nodes;
    var returns' := if h[from].ReturnEntry? then returns_[h[from].id := n] else returns_;
    forall id | id in returns' ensures exists q: nat :: IsFirstReturn(h, from, id, q) && returns'[id] == nodes'[q - from] {
      if h[from].ReturnEntry? && h[from].id == id {
        assert IsFirstReturn(h, from, id, from);
      } else {
        var q: nat :| IsFirstReturn(h, from + 1, id, q) && returns_[id] == nodes[q - (from + 1)];
        assert IsFirstReturn(h, from, id, q);
      }
    }
    forall id: nat, q: nat | IsFirstReturn(h, from, id, q) ensures id in returns' {
      if q != from { assert IsFirstReturn(h, from + 1, id, q); }
    }
  }

  // ---------------------------------------------------------------------------

  /** short is l without its i-th node. */
  ghost predicate Drops<I, O>(l: seq<Node<I, O>>, i: nat, short: seq<Node<I, O>>) {
    && i < |l| && |short| == |l| - 1
    && (forall k :: 0 <= k < i ==> short[k] == l[k])
    && (forall k :: i <= k < |short| ==> short[k] == l[k + 1])
  }

  ghost function Drop<I, O>(l: seq<Node<I, O>>, i: nat): (short: seq<Node<I, O>>)
    requires i < |l|
    ensures Drops(l, i, short)
  {
    l[..i] + l[i+1..]
  }

  ghost function Without<I, O>(l: seq<Node<I, O>>, i: nat, j: nat): seq<Node<I, O>>
    requires i < j < |l|
  {
    Drop(Drop(l, i), j - 1)
  }

  /** The i-th and j-th nodes of l, out of the list, still point at the neighbours they
      are to be put back between: the i-th at its own, the j-th at those it had once the
      i-th was gone. */
  ghost predicate Lifted<I, O>(l: seq<Node<I, O>>, i: nat, j: nat)
    requires 0 < i < j < |l|
    reads l[i], l[j]
  {
    && l[i].prev == l[i-1] && l[i].next == l[i+1]
    && l[j].prev == l[if j == i + 1 then i - 1 else j - 1] && l[j].next == At(l, j + 1)
  }

  /** Takes n out of the list; n keeps its own pointers. */
  method Detach<I, O>(n: Node<I, O>, ghost l: seq<Node<I, O>>, ghost i: nat, ghost short: seq<Node<I, O>>)
    requires Linked(l) && 0 < i < |l| && n == l[i] && Drops(l, i, short)
    modifies short
    ensures Linked(short)
    ensures n.prev == l[i-1] && n.next == At(l, i + 1)
  {
    assert n.prev == short[i-1];
    n.prev.next := n.next;
    if n.next != null {
      assert n.next == short[i];
      n.next.prev := n.prev;
    }
  }

  /** Puts n back between the neighbours it still points at. */
  method Attach<I, O>(n: Node<I, O>, ghost l: seq<Node<I, O>>, ghost i: nat, ghost short: seq<Node<I, O>>)
    requires 0 < i < |l| && n == l[i] && Drops(l, i, short) && AllDifferent(l)
    requires Linked(short)
    requires n.prev == l[i-1] && n.next == At(l, i + 1)
    modifies short
    ensures Linked(l)
  {
    assert n.prev == short[i-1];
    assert forall k :: 0 <= k < |short| ==> short[k] != n;
    assert forall k :: i < k < |l| ==> short[k-1] == l[k];
    n.prev.next := n;
    if n.next != null {
      assert n.next == short[i];
      n.next.prev := n;
    }
  }

  /** Takes the call l[i] and its return l[j] out of the list. */
  method Lift<I, O>(entry: Node<I, O>, ghost l: seq<Node<I, O>>, ghost i: nat, ghost j: nat)
    requires Linked(l) && 0 < i < j < |l| && entry == l[i] && entry.matching == l[j]
    modifies l
    ensures Linked(Without(l, i, j)) && Lifted(l, i, j)
  {
    ghost var mid := Drop(l, i);
    assert entry.next == l[i+1];
    assert mid[j-1] == l[j];
    Detach(entry, l, i, mid);
    ghost var short := Drop(mid, j - 1);
    assert forall k :: 0 <= k < |mid| ==> mid[k] != entry;
    assert forall k :: 0 <= k < |short| ==> short[k] != entry;
    Detach(entry.matching, mid, j - 1, short);
    assert l[j].next == At(mid, j) == At(l, j + 1);
  }

  /** Puts them back. */
  method Unlift<I, O>(entry: Node<I, O>, ghost l: seq<Node<I, O>>, ghost i: nat, ghost j: nat)
    requires 0 < i < j < |l| && entry == l[i] && entry.matching == l[j] && AllDifferent(l)
    requires Linked(Without(l, i, j)) && Lifted(l, i, j)
    modifies l
    ensures Linked(l)
  {
    ghost var mid := Drop(l, i);
    assert mid[j-1] == l[j];
    Attach(entry.matching, mid, j - 1, Drop(mid, j - 1));
    Attach(entry, l, i, mid);
  }

  // ---------------------------------------------------------------------------
  // Nested lifting: pairs taken out one after another and put back in reverse.

  /** Lists of positions, each the one before without the elements at calls[k] and rets[k]. */
  datatype Tower = Tower(lists: seq<seq<nat>>, calls: seq<nat>, rets: seq<nat>)

  ghost predicate Stacked(t: Tower, n: nat) {
    && |t.lists| == |t.calls| + 1 && |t.calls| == |t.rets|
    && (forall k :: 0 <= k < |t.lists| ==> Ascending(t.lists[k], n))
    && (forall k :: 0 <= k < |t.calls| ==> TakenAt(t, k))
  }

  ghost predicate TakenAt(t: Tower, k: nat)
    requires |t.lists| == |t.calls| + 1 && |t.calls| == |t.rets| && k < |t.calls|
  {
    && t.calls[k] < t.rets[k] < |t.lists[k]|
    && t.lists[k + 1] == Unlist(t.lists[k], t.calls[k], t.rets[k])
  }

  ghost predicate Ascending(live: seq<nat>, n: nat) {
    && (forall i :: 0 <= i < |live| ==> live[i] < n)
    && (forall i, j :: 0 <= i < j < |live| ==> live[i] < live[j])
  }

  function Top(t: Tower): seq<nat>
    requires |t.lists| > 0
  {
    t.lists[|t.lists| - 1]
  }

  function Push(t: Tower, i: nat, j: nat): Tower
    requires |t.lists| > 0 && i < j < |Top(t)|
  {
    Tower(t.lists + [Unlist(Top(t), i, j)], t.calls + [i], t.rets + [j])
  }

  /** The head, then the nodes at the listed positions. */
  ghost function Chain<I, O>(head: Node<I, O>, nodes: seq<Node<I, O>>, live: seq<nat>): (c: seq<Node<I, O>>)
    requires Ascending(live, |nodes|)
    ensures |c| == |live| + 1 && c[0] == head
    ensures forall i :: 0 <= i < |live| ==> c[i + 1] == nodes[live[i]]
    ensures forall i :: 0 <= i < |c| ==> c[i] == head || c[i] in nodes
  {
    if live == [] then [head]
    else
      var n := |live| - 1;
      Chain(head, nodes, live[..n]) + [nodes[live[n]]]
  }

  /** The list in memory is the top of the tower, and every pair taken out below it still
      points at the places it came from. */
  ghost predicate Standing<I, O>(head: Node<I, O>, nodes: seq<Node<I, O>>, t: Tower)
    reads head, nodes
  {
    && Stacked(t, |nodes|)
    && AllDifferent(nodes) && head !in nodes
    && Linked(Chain(head, nodes, Top(t)))
    && AllWait(head, nodes, t)
  }

  /** The nodes taken out. */
  ghost function Waiting<I, O>(nodes: seq<Node<I, O>>, t: Tower): (w: set<Node<I, O>>)
    requires Stacked(t, |nodes|)
    ensures forall x :: x in w ==> x in nodes
    ensures forall k :: 0 <= k < |t.calls| && TakenAt(t, k) ==>
              nodes[t.lists[k][t.calls[k]]] in w && nodes[t.lists[k][t.rets[k]]] in w
  {
    (set k | 0 <= k < |t.calls| && TakenAt(t, k) :: nodes[t.lists[k][t.calls[k]]]) +
    (set k | 0 <= k < |t.calls| && TakenAt(t, k) :: nodes[t.lists[k][t.rets[k]]])
  }

  ghost predicate AllWait<I, O>(head: Node<I, O>, nodes: seq<Node<I, O>>, t: Tower)
    requires Stacked(t, |nodes|)
    reads Waiting(nodes, t)
  {
    forall k :: 0 <= k < |t.calls| && TakenAt(t, k) ==>
      Waits(head, nodes, t.lists[k], t.calls[k], t.rets[k])
  }

  ghost predicate Waits<I, O>(head: Node<I, O>, nodes: seq<Node<I, O>>, live: seq<nat>, i: nat, j: nat)
    requires Ascending(live, |nodes|) && i < j < |live|
    reads nodes[live[i]], nodes[live[j]]
  {
    var c := Chain(head, nodes, live);
    assert c[i + 1] == nodes[live[i]] && c[j + 1] == nodes[live[j]];
    Lifted(c, i + 1, j + 1)
  }

  lemma ChainDifferent<I, O>(head: Node<I, O>, nodes: seq<Node<I, O>>, live: seq<nat>)
    requires Ascending(live, |nodes|) && AllDifferent(nodes) && head !in nodes
    ensures AllDifferent(Chain(head, nodes, live))
  {
    var c := Chain(head, nodes, live);
    forall i, j | 0 <= i < j < |c| ensures c[i] != c[j] {
      assert c[j] == nodes[live[j - 1]];
      if i > 0 { assert c[i] == nodes[live[i - 1]]; }
    }
  }

  lemma ChainUnlist<I, O>(head: Node<I, O>, nodes: seq<Node<I, O>>, live: seq<nat>, i: nat, j: nat)
    requires Ascending(live, |nodes|) && i < j < |live|
    ensures Ascending(Unlist(live, i, j), |nodes|)
    ensures Chain(head, nodes, Unlist(live, i, j)) == Without(Chain(head, nodes, live), i + 1, j + 1)
  {
    UnlistAt(live, i, j);
    var c, d := Chain(head, nodes, live), Chain(head, nodes, Unlist(live, i, j));
    var w := Without(c, i + 1, j + 1);
    forall k | 0 <= k < |d| ensures d[k] == w[k] {
      if k > 0 {
        assert d[k] == nodes[Unlist(live, i, j)[k - 1]] == nodes[live[Source(i, j, k - 1)]];
      }
    }
  }

  /** What has been taken out stays out further up. */
  lemma {:induction false} TakenOut(t: Tower, n: nat, k: nat, l: nat)
    requires Stacked(t, n) && k < l < |t.lists|
    requires TakenAt(t, k)
    ensures t.lists[k][t.calls[k]] !in t.lists[l] && t.lists[k][t.rets[k]] !in t.lists[l]
  {
    var m := l - 1;
    assert TakenAt(t, m) && Ascending(t.lists[m], n);
    UnlistAt(t.lists[m], t.calls[m], t.rets[m]);
    if k < m {
      TakenOut(t, n, k, m);
    }
    hide Stacked, Unlist;
    forall p | p in t.lists[l] ensures p in t.lists[m] && p != t.lists[k][t.calls[k]] && p != t.lists[k][t.rets[k]] {
      var x :| 0 <= x < |t.lists[l]| && t.lists[l][x] == p;
      assert p == t.lists[m][Source(t.calls[m], t.rets[m], x)];
    }
  }

  lemma PushStacked(t: Tower, n: nat, i: nat, j: nat)
    requires Stacked(t, n) && i < j < |Top(t)|
    ensures Stacked(Push(t, i, j), n)
  {
    UnlistAt(Top(t), i, j);
    var t' := Push(t, i, j);
    forall k | 0 <= k < |t'.calls| ensures TakenAt(t', k) {
      if k < |t.calls| { assert TakenAt(t, k); }
    }
  }

  lemma NotInChain<I, O>(head: Node<I, O>, nodes: seq<Node<I, O>>, live: seq<nat>, p: nat)
    requires Ascending(live, |nodes|) && AllDifferent(nodes) && head !in nodes
    requires p < |nodes| && p !in live
    ensures nodes[p] !in Chain(head, nodes, live)
  {
    var c := Chain(head, nodes, live);
    forall i | 0 <= i < |c| ensures c[i] != nodes[p] {
      if i > 0 {
        assert c[i] == nodes[live[i - 1]] && live[i - 1] != p;
      }
    }
  }

  /** What waits is not in the list. */
  lemma WaitingOutside<I, O>(head: Node<I, O>, nodes: seq<Node<I, O>>, t: Tower)
    requires Stacked(t, |nodes|) && AllDifferent(nodes) && head !in nodes
    ensures forall x :: x in Waiting(nodes, t) ==> x !in Chain(head, nodes, Top(t))
  {
    forall k | 0 <= k < |t.calls| && TakenAt(t, k)
      ensures nodes[t.lists[k][t.calls[k]]] !in Chain(head, nodes, Top(t))
      ensures nodes[t.lists[k][t.rets[k]]] !in Chain(head, nodes, Top(t))
    {
      TakenOut(t, |nodes|, k, |t.calls|);
      NotInChain(head, nodes, Top(t), t.lists[k][t.calls[k]]);
      NotInChain(head, nodes, Top(t), t.lists[k][t.rets[k]]);
    }
  }

  lemma PushWaits<I, O>(head: Node<I, O>, nodes: seq<Node<I, O>>, t: Tower, i: nat, j: nat)
    requires Stacked(t, |nodes|) && AllWait(head, nodes, t)
    requires i < j < |Top(t)| && Stacked(Push(t, i, j), |nodes|)
    requires Waits(head, nodes, Top(t), i, j)
    ensures AllWait(head, nodes, Push(t, i, j))
  {
    var t' := Push(t, i, j);
    forall k | 0 <= k < |t'.calls| && TakenAt(t', k)
      ensures Waits(head, nodes, t'.lists[k], t'.calls[k], t'.rets[k])
    {
      if k < |t.calls| {
        assert t'.lists[k] == t.lists[k] && t'.calls[k] == t.calls[k] && t'.rets[k] == t.rets[k];
        assert t'.lists[k + 1] == t.lists[k + 1];
        assert TakenAt(t, k);
      } else {
        assert t'.lists[k] == Top(t) && t'.calls[k] == i && t'.rets[k] == j;
      }
    }
  }

  lemma PopWaits<I, O>(head: Node<I, O>, nodes: seq<Node<I, O>>, t: Tower, i: nat, j: nat)
    requires Stacked(t, |nodes|) && i < j < |Top(t)|
    requires Stacked(Push(t, i, j), |nodes|) && AllWait(head, nodes, Push(t, i, j))
    ensures AllWait(head, nodes, t)
    ensures Waits(head, nodes, Top(t), i, j)
  {
    var t' := Push(t, i, j);
    assert TakenAt(t', |t.calls|);
    forall k | 0 <= k < |t.calls| && TakenAt(t, k)
      ensures Waits(head, nodes, t.lists[k], t.calls[k], t.rets[k])
    {
      assert t'.lists[k] == t.lists[k] && t'.calls[k] == t.calls[k] && t'.rets[k] == t.rets[k];
      assert t'.lists[k + 1] == t.lists[k + 1];
      assert TakenAt(t', k);
    }
  }

  /** Takes out one more pair. */
  method LiftPair<I, O>(entry: Node<I, O>, ghost head: Node<I, O>, ghost nodes: seq<Node<I, O>>, ghost t: Tower, ghost i: nat, ghost j: nat)
    requires Standing(head, nodes, t)
    requires i < j < |Top(t)| && entry == nodes[Top(t)[i]] && entry.matching == nodes[Top(t)[j]]
    modifies head, nodes
    ensures Standing(head, nodes, Push(t, i, j))
  {
    hide Linked, Waits, TakenAt, AllDifferent, Ascending;
    ghost var c := Chain(head, nodes, Top(t));
    assert c[i + 1] == entry && c[j + 1] == entry.matching;
    WaitingOutside(head, nodes, t);
    assert AllWait(head, nodes, t);
    ghost var w := Waiting(nodes, t);
    assert forall x :: x in w ==> x !in c;
    label before:
    Lift(entry, c, i + 1, j + 1);
    assert unchanged@before(w);
    assert AllWait(head, nodes, t);
    PushStacked(t, |nodes|, i, j);
    PushWaits(head, nodes, t, i, j);
    ChainUnlist(head, nodes, Top(t), i, j);
  }

  lemma ReadyToUnlift<I, O>(head: Node<I, O>, nodes: seq<Node<I, O>>, t: Tower, i: nat, j: nat)
    requires Stacked(t, |nodes|) && i < j < |Top(t)|
    requires Standing(head, nodes, Push(t, i, j))
    ensures var c := Chain(head, nodes, Top(t));
            && AllDifferent(c) && Linked(Without(c, i + 1, j + 1)) && Lifted(c, i + 1, j + 1)
            && AllWait(head, nodes, t)
            && (forall x :: x in Waiting(nodes, t) ==> x !in c)
  {
    assert Top(Push(t, i, j)) == Unlist(Top(t), i, j);
    ChainDifferent(head, nodes, Top(t));
    ChainUnlist(head, nodes, Top(t), i, j);
    PopWaits(head, nodes, t, i, j);
    WaitingOutside(head, nodes, t);
  }

  /** Puts back the pair taken out last: the list is what it was before. */
  method UnliftPair<I, O>(entry: Node<I, O>, ghost head: Node<I, O>, ghost nodes: seq<Node<I, O>>, ghost t: Tower, ghost i: nat, ghost j: nat)
    requires Stacked(t, |nodes|) && i < j < |Top(t)|
    requires Standing(head, nodes, Push(t, i, j))
    requires entry == nodes[Top(t)[i]] && entry.matching == nodes[Top(t)[j]]
    modifies head, nodes
    ensures Standing(head, nodes, t)
  {
    hide Linked, Waits, TakenAt, AllDifferent, Ascending;
    ghost var c := Chain(head, nodes, Top(t));
    assert c[i + 1] == entry && c[j + 1] == entry.matching;
    ReadyToUnlift(head, nodes, t, i, j);
    Unlift(entry, c, i + 1, j + 1);
    assert AllWait(head, nodes, t);
  }
}
