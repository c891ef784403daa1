/** The search as the checker runs it: on the linked list, with a bit set that is changed
    in place, a cache of bit sets bucketed by hash, and a stack of calls. */
module Checker {
  import opened Linearizability
  import opened Search
  import opened EntryList
  import opened Bitset

  datatype CacheEntry<S> = CacheEntry(linearized: array<Word>, state: S)

  type Cache<S> = map<Word, seq<CacheEntry<S>>>

  datatype CallsEntry<S, I, O> = CallsEntry(entry: Node<I, O>, state: S)

  // ---------------------------------------------------------------------------
  // The cache as a set of configurations.

  ghost function Arrays<S>(cache: Cache<S>): set<array<Word>> {
    set k, j | k in cache && 0 <= j < |cache[k]| :: cache[k][j].linearized
  }

  ghost function Meaning<S>(e: CacheEntry<S>): Config<S>
    reads e.linearized
  {
    Config(Members(e.linearized[..]), e.state)
  }

  /** The cache remembers exactly memo, each configuration in the bucket of its hash. */
  ghost predicate Remembers<S>(cache: Cache<S>, words: nat, memo: set<Config<S>>)
    reads Arrays(cache)
  {
    && (forall k, j :: k in cache && 0 <= j < |cache[k]| ==> Filed(cache, words, memo, k, j))
    && (forall c :: c in memo ==> exists k, j :: k in cache && 0 <= j < |cache[k]| && Meaning(cache[k][j]) == c)
  }

  ghost predicate Filed<S>(cache: Cache<S>, words: nat, memo: set<Config<S>>, k: Word, j: nat)
    requires k in cache && j < |cache[k]|
    reads cache[k][j].linearized
  {
    var e := cache[k][j];
    && e.linearized.Length == words
    && HashOf(e.linearized[..]) == k
    && Meaning(e) in memo
  }

  /** The bucket scan answers: is a configuration with these members and an
      indistinguishable state remembered? */
  method CacheContains<S, I, O>(m: Model<S, I, O>, cache: Cache<S>, entry: CacheEntry<S>, ghost memo: set<Config<S>>) returns (found: bool)
    requires Remembers(cache, entry.linearized.Length, memo)
    ensures found <==> exists t :: Config(Members(entry.linearized[..]), t) in memo && m.equal(entry.state, t)
  {
    hide Members, HashOf;
    var hash := Hash(entry.linearized);
    var bucket := if hash in cache then cache[hash] else [];
    ghost var done := Members(entry.linearized[..]);
    for i := 0 to |bucket|
      invariant forall j :: 0 <= j < i ==>
        !(Members(bucket[j].linearized[..]) == done && m.equal(entry.state, bucket[j].state))
    {
      var elem := bucket[i];
      assert Filed(cache, entry.linearized.Length, memo, hash, i);
      var same := Equals(entry.linearized, elem.linearized);
      if same && m.equal(entry.state, elem.state) {
        assert Config(done, elem.state) in memo;
        return true;
      }
    }
    forall t | Config(done, t) in memo ensures !m.equal(entry.state, t) {
      var k, j :| k in cache && 0 <= j < |cache[k]| && Meaning(cache[k][j]) == Config(done, t);
      assert Filed(cache, entry.linearized.Length, memo, k, j);
      MembersDetermine(cache[k][j].linearized[..], entry.linearized[..]);
      assert k == hash;
    }
    return false;
  }

  /** Files one more configuration in the bucket of its hash. */
  method FileEntry<S>(cache: Cache<S>, e: CacheEntry<S>, ghost memo: set<Config<S>>) returns (cache': Cache<S>)
    requires Remembers(cache, e.linearized.Length, memo)
    ensures Remembers(cache', e.linearized.Length, memo + {Meaning(e)})
    ensures Arrays(cache') == Arrays(cache) + {e.linearized}
  {
    var hash := Hash(e.linearized);
    var bucket := if hash in cache then cache[hash] else [];
    cache' := cache[hash := bucket + [e]];
    FiledSound(cache, e.linearized.Length, memo, hash, e);
    FiledComplete(cache, memo, hash, e);
    FiledArrays(cache, hash, e);
  }

  function Bucket<S>(cache: Cache<S>, hash: Word): seq<CacheEntry<S>> {
    if hash in cache then cache[hash] else []
  }

  lemma FiledSound<S>(cache: Cache<S>, words: nat, memo: set<Config<S>>, hash: Word, e: CacheEntry<S>)
    requires Remembers(cache, words, memo)
    requires e.linearized.Length == words && hash == HashOf(e.linearized[..])
    ensures var cache' := cache[hash := Bucket(cache, hash) + [e]];
            forall k, j :: k in cache' && 0 <= j < |cache'[k]| ==> Filed(cache', words, memo + {Meaning(e)}, k, j)
  {
    hide Members, HashOf;
    var bucket := Bucket(cache, hash);
    var cache' := cache[hash := bucket + [e]];
    var memo' := memo + {Meaning(e)};
    forall k, j | k in cache' && 0 <= j < |cache'[k]| ensures Filed(cache', words, memo', k, j) {
      if k != hash || j < |bucket| {
        assert cache'[k][j] == cache[k][j];
        assert Filed(cache, words, memo, k, j);
      }
    }
  }

  lemma FiledComplete<S>(cache: Cache<S>, memo: set<Config<S>>, hash: Word, e: CacheEntry<S>)
    requires forall c :: c in memo ==> exists k, j :: k in cache && 0 <= j < |cache[k]| && Meaning(cache[k][j]) == c
    ensures var cache' := cache[hash := Bucket(cache, hash) + [e]];
            forall c :: c in memo + {Meaning(e)} ==> exists k, j :: k in cache' && 0 <= j < |cache'[k]| && Meaning(cache'[k][j]) == c
  {
    hide Members;
    var bucket := Bucket(cache, hash);
    var cache' := cache[hash := bucket + [e]];
    forall c | c in memo + {Meaning(e)} ensures exists k, j :: k in cache' && 0 <= j < |cache'[k]| && Meaning(cache'[k][j]) == c {
      if c in memo {
        var k, j :| k in cache && 0 <= j < |cache[k]| && Meaning(cache[k][j]) == c;
        assert cache'[k][j] == cache[k][j];
      } else {
        assert cache'[hash][|bucket|] == e;
      }
    }
  }

  lemma FiledArrays<S>(cache: Cache<S>, hash: Word, e: CacheEntry<S>)
    ensures Arrays(cache[hash := Bucket(cache, hash) + [e]]) == Arrays(cache) + {e.linearized}
  {
    var bucket := Bucket(cache, hash);
    var cache' := cache[hash := bucket + [e]];
    assert cache'[hash][|bucket|] == e;
    forall a | a in Arrays(cache) ensures a in Arrays(cache') {
      var k, j :| k in cache && 0 <= j < |cache[k]| && cache[k][j].linearized == a;
      assert cache'[k][j] == cache[k][j];
    }
  }

  // ---------------------------------------------------------------------------
  // The list, the stack and the levels of the search.

  /** The nodes as the calls and returns of ops, each call pointing at its return. */
  ghost predicate Wired<I, O>(h: seq<Entry<I, O>>, ops: seq<Operation<I, O>>, nodes: seq<Node<I, O>>) {
    && Encodes(h, ops) && |nodes| == |h|
    && (forall p :: 0 <= p < |h| ==> nodes[p].id == h[p].id)
    && (forall p :: 0 <= p < |h| && h[p].ReturnEntry? ==> nodes[p].matching == null && nodes[p].value == Output(h[p].output))
    && (forall p :: 0 <= p < |h| && h[p].CallEntry? ==>
          nodes[p].matching == nodes[ops[h[p].id].ret] && nodes[p].value == Input(h[p].input))
  }

  lemma HeldIsWired<I, O>(h: seq<Entry<I, O>>, ops: seq<Operation<I, O>>, nodes: seq<Node<I, O>>)
    requires Encodes(h, ops) && Holds(h, 0, nodes)
    ensures Wired(h, ops, nodes)
  {
    forall p | 0 <= p < |h|
      ensures nodes[p].id == h[p].id
      ensures h[p].ReturnEntry? ==> nodes[p].matching == null && nodes[p].value == Output(h[p].output)
      ensures h[p].CallEntry? ==> nodes[p].matching == nodes[ops[h[p].id].ret] && nodes[p].value == Input(h[p].input)
    {
      assert HoldsAt(h, 0, nodes, p);
      if h[p].CallEntry? {
        assert NearestReturn(h, p, ops[h[p].id].ret);
      }
    }
  }

  /** The tower of lists and the levels of the search go together. */
  ghost predicate Aligned<S>(t: Tower, frames: seq<Frame<S>>) {
    && |t.lists| == |frames| && |frames| == |t.calls| + 1 && |t.rets| == |t.calls|
    && (forall k :: 0 <= k < |frames| ==> t.lists[k] == frames[k].live)
    && (forall k :: 0 <= k < |t.calls| ==> t.calls[k] == frames[k].idx)
  }

  /** The stack of calls and the levels of the search go together. */
  ghost predicate Follows<S, I, O>(nodes: seq<Node<I, O>>, calls: seq<CallsEntry<S, I, O>>, frames: seq<Frame<S>>) {
    && |frames| == |calls| + 1
    && forall k :: 0 <= k < |calls| ==>
         && frames[k].idx < |frames[k].live| && frames[k].live[frames[k].idx] < |nodes|
         && calls[k].entry == nodes[frames[k].live[frames[k].idx]]
         && calls[k].state == frames[k].config.state
  }

  /** The ids on the stack, bottom to top, are the path. */
  lemma PathIsStack<S, I, O>(m: Model<S, I, O>, h: seq<Entry<I, O>>, ops: seq<Operation<I, O>>, frames: seq<Frame<S>>,
                             nodes: seq<Node<I, O>>, calls: seq<CallsEntry<S, I, O>>)
    requires Levels(m, h, ops, frames) && Wired(h, ops, nodes) && Follows(nodes, calls, frames)
    ensures var path := Last(frames).path;
            && |path| == |calls| && Within(path, |ops|)
            && forall k :: 0 <= k < |calls| ==> calls[k].entry.id == path[k]
  {
    hide Levels, Wired, Encodes;
    var n := |calls|;
    PathBasics(m, h, ops, frames);
    forall k | 0 <= k < n ensures calls[k].entry.id == frames[n].path[k] {
      PathAt(m, h, ops, frames, n, k);
      StackId(h, ops, frames, nodes, calls, k);
    }
  }

  lemma PathBasics<S, I, O>(m: Model<S, I, O>, h: seq<Entry<I, O>>, ops: seq<Operation<I, O>>, frames: seq<Frame<S>>)
    requires Levels(m, h, ops, frames)
    ensures |frames| > 0 && |Last(frames).path| == |frames| - 1 && Within(Last(frames).path, |ops|)
  {
    hide Encodes, LiveAt, Descends;
    var n := |frames| - 1;
    assert Level(m, h, ops, frames[n]) && |frames[n].path| == n;
  }

  lemma StackId<S, I, O>(h: seq<Entry<I, O>>, ops: seq<Operation<I, O>>, frames: seq<Frame<S>>,
                         nodes: seq<Node<I, O>>, calls: seq<CallsEntry<S, I, O>>, k: nat)
    requires Wired(h, ops, nodes) && Follows(nodes, calls, frames) && k < |calls|
    requires k < |frames| && frames[k].idx < |frames[k].live| && frames[k].live[frames[k].idx] < |h|
    ensures calls[k].entry.id == Chosen(h, frames[k])
  {
    assert nodes[frames[k].live[frames[k].idx]].id == Chosen(h, frames[k]);
  }

  lemma {:induction false} PathAt<S, I, O>(m: Model<S, I, O>, h: seq<Entry<I, O>>, ops: seq<Operation<I, O>>, frames: seq<Frame<S>>, l: nat, k: nat)
    requires Levels(m, h, ops, frames) && k < l < |frames|
    ensures frames[k].idx < |frames[k].live| && frames[k].live[frames[k].idx] < |h|
    ensures k < |frames[l].path| && frames[l].path[k] == Chosen(h, frames[k])
  {
    var j := l - 1;
    assert Level(m, h, ops, frames[j]) && |frames[j].path| == j;
    assert Descends(m, h, ops, frames[j], frames[l]);
    if k < j { PathAt(m, h, ops, frames, j, k); }
  }

  /** Enters the path on the stack for each of its operations that has no record yet, or
      a shorter one. */
  method RecordPath<S, I, O>(longest: array<Option<seq<nat>>>, calls: seq<CallsEntry<S, I, O>>, ghost path: seq<nat>)
    requires |path| == |calls| && Within(path, longest.Length)
    requires forall k :: 0 <= k < |calls| ==> calls[k].entry.id == path[k]
    modifies longest
    ensures longest[..] == Record(old(longest[..]), path)
  {
    var callsLen := |calls|;
    var ids: Option<seq<nat>> := None;
    ghost var before := longest[..];
    for i := 0 to |calls|
      invariant ids.Some? ==> ids.value == path
      invariant forall x :: 0 <= x < longest.Length ==>
        longest[x] == if x in path[..i] && (before[x].None? || |path| > |before[x].value|) then Some(path) else before[x]
    {
      var id := calls[i].entry.id;
      assert path[..i + 1] == path[..i] + [path[i]];
      if longest[id].None? || callsLen > |longest[id].value| {
        if ids.None? {
          var s := Ids(calls, path);
          ids := Some(s);
        }
        longest[id] := ids;
      }
    }
    assert path[..|calls|] == path;
  }

  method Ids<S, I, O>(calls: seq<CallsEntry<S, I, O>>, ghost path: seq<nat>) returns (ids: seq<nat>)
    requires |path| == |calls| && forall k :: 0 <= k < |calls| ==> calls[k].entry.id == path[k]
    ensures ids == path
  {
    ids := [];
    for i := 0 to |calls|
      invariant ids == path[..i]
    {
      ids := ids + [calls[i].entry.id];
    }
  }

  /** What the node under the cursor is. */
  lemma AtCursor<S, I, O>(m: Model<S, I, O>, h: seq<Entry<I, O>>, ops: seq<Operation<I, O>>, partial: bool,
                          frames: seq<Frame<S>>, memo: set<Config<S>>, longest: Longest, nodes: seq<Node<I, O>>) returns (j: nat)
    requires Inv(m, h, ops, partial, frames, memo, longest) && Wired(h, ops, nodes)
    requires |frames| > 0
    requires Last(frames).idx < |Last(frames).live|
    ensures forall i :: 0 <= i < |Last(frames).live| ==> Last(frames).live[i] < |nodes| && Last(frames).live[i] < |h|
    ensures var f := Last(frames);
      && var e := nodes[f.live[f.idx]];
      && (e.matching == null ==> h[f.live[f.idx]].ReturnEntry?)
      && (e.matching != null ==>
            && h[f.live[f.idx]].CallEntry?
            && e.id == Chosen(h, f) && Chosen(h, f) < |ops| && Chosen(h, f) !in f.config.done
            && e.value == Input(ops[Chosen(h, f)].input)
            && e.matching.value == Output(ops[Chosen(h, f)].output)
            && f.idx < j < |f.live| && f.live[j] < |nodes| && e.matching == nodes[f.live[j]]
            && f.live[j] == ops[Chosen(h, f)].ret)
  {
    var f := Last(frames);
    assert Level(m, h, ops, f);
    if h[f.live[f.idx]].CallEntry? {
      j := ReturnFollows(h, ops, f.config.done, f.live, f.idx);
    } else {
      j := 0;
    }
  }

  /** Where the list leads from the head and from a node in it. */
  lemma Along<I, O>(head: Node<I, O>, nodes: seq<Node<I, O>>, t: Tower)
    requires Standing(head, nodes, t)
    ensures forall i :: 0 <= i < |Top(t)| ==> Top(t)[i] < |nodes|
    ensures head.next == if Top(t) == [] then null else nodes[Top(t)[0]]
    ensures forall i, j :: 0 <= i < |Top(t)| && 0 <= j < |Top(t)| && j == i + 1 ==> nodes[Top(t)[i]].next == nodes[Top(t)[j]]
  {
    var c := Chain(head, nodes, Top(t));
    if Top(t) != [] { assert c[1] == nodes[Top(t)[0]]; }
    forall i, j | 0 <= i < |Top(t)| && 0 <= j < |Top(t)| && j == i + 1 ensures nodes[Top(t)[i]].next == nodes[Top(t)[j]] {
      assert c[i + 1].next == c[j + 1];
    }
  }

  lemma WholeList<I, O>(head: Node<I, O>, nodes: seq<Node<I, O>>, live: seq<nat>)
    requires Linked([head] + nodes)
    requires |live| == |nodes| && forall i :: 0 <= i < |live| ==> live[i] == i
    ensures Standing(head, nodes, Tower([live], [], []))
  {
    var l := [head] + nodes;
    forall i, j | 0 <= i < j < |nodes| ensures nodes[i] != nodes[j] {
      assert l[i + 1] != l[j + 1];
    }
    forall i | 0 <= i < |nodes| ensures nodes[i] != head {
      assert l[0] != l[i + 1];
    }
    var c := Chain(head, nodes, live);
    forall k | 0 <= k < |c| ensures c[k] == l[k] {
      if k > 0 { assert c[k] == nodes[live[k - 1]]; }
    }
    assert c == l;
  }

  /** The list of the whole history behind a head, and the number of its operations. */
  method PrepareList<I, O>(history: seq<Entry<I, O>>)
    returns (entry: Node?<I, O>, head: Node<I, O>, n: nat, ghost nodes: seq<Node<I, O>>, ghost live: seq<nat>)
    ensures fresh(head) && fresh(nodes) && n == |history| / 2
    ensures Holds(history, 0, nodes) && |nodes| == |history|
    ensures |live| == |history| && forall i :: 0 <= i < |live| ==> live[i] == i
    ensures Standing(head, nodes, Tower([live], [], []))
    ensures entry == if history == [] then null else nodes[0]
  {
    hide Holds, Linked, Standing;
    entry, nodes := MakeLinkedEntries(history);
    var size := Length(entry, nodes);
    n := size / 2;
    head := new Node(NoValue, null, -1);
    head := InsertBefore(head, entry, nodes, 0);
    live := seq(|history|, i => i);
    WholeList(head, nodes, live);
  }

  /** What stays fixed through one search: the arrays and the list head are changed in
      place, never replaced. */
  datatype Fixed<!S, !I, !O> = Fixed(
    m: Model<S, I, O>, history: seq<Entry<I, O>>, computePartial: bool,
    headEntry: Node<I, O>, linearized: array<Word>, longest: array<Option<seq<nat>>>)

  /** The variables of the loop. */
  datatype Vars<S, I, O> = Vars(entry: Node?<I, O>, cache: Cache<S>, calls: seq<CallsEntry<S, I, O>>, state: S)

  /** What the proof tracks beside them: the levels, the configurations in the cache, and
      the lists of the levels. */
  datatype Shadow<S(==)> = Shadow(frames: seq<Frame<S>>, memo: set<Config<S>>, t: Tower)

  ghost predicate Valid<S(!new), I(!new), O(!new)>(fx: Fixed<S, I, O>, ops: seq<Operation<I, O>>, nodes: seq<Node<I, O>>, v: Vars<S, I, O>, g: Shadow<S>)
    reads fx.linearized, fx.longest, fx.headEntry, nodes, Arrays(v.cache)
  {
    && Congruent(fx.m) && Wired(fx.history, ops, nodes)
    && Inv(fx.m, fx.history, ops, fx.computePartial, g.frames, g.memo, fx.longest[..])
    && g.memo <= Universe(fx.m, ops)
    && ListOk(fx.headEntry, nodes, v, g)
    && CacheOk(fx.linearized, v.cache, g) && fx.linearized.Length == (|ops| + 63) / 64
    && CursorOk(nodes, v, g)
  }

  /** The list and the stack are those of the levels. */
  ghost predicate ListOk<S, I, O>(headEntry: Node<I, O>, nodes: seq<Node<I, O>>, v: Vars<S, I, O>, g: Shadow<S>)
    reads headEntry, nodes
  {
    Standing(headEntry, nodes, g.t) && Aligned(g.t, g.frames) && Follows(nodes, v.calls, g.frames)
  }

  /** The bit set is the current set of placed operations, the cache is the memo, and no
      array in the cache is the one changed in place. */
  ghost predicate CacheOk<S>(linearized: array<Word>, cache: Cache<S>, g: Shadow<S>)
    reads linearized, Arrays(cache)
  {
    && |g.frames| > 0
    && Members(linearized[..]) == Last(g.frames).config.done
    && Remembers(cache, linearized.Length, g.memo) && linearized !in Arrays(cache)
  }

  ghost predicate CursorOk<S, I, O>(nodes: seq<Node<I, O>>, v: Vars<S, I, O>, g: Shadow<S>) {
    && |g.frames| > 0
    && var f := Last(g.frames);
    && v.state == f.config.state
    && (f.live == [] ==> f.idx == 0 && v.entry == null)
    && (f.live != [] ==> f.idx < |f.live| && f.live[f.idx] < |nodes| && v.entry == nodes[f.live[f.idx]])
  }

  method Begin<S(==,!new), I(!new), O(!new)>(m: Model<S, I, O>, history: seq<Entry<I, O>>, computePartial: bool, ghost ops: seq<Operation<I, O>>)
    returns (fx: Fixed<S, I, O>, v: Vars<S, I, O>, ghost nodes: seq<Node<I, O>>, ghost g: Shadow<S>)
    requires Congruent(m) && Encodes(history, ops)
    ensures fx.m == m && fx.history == history && fx.computePartial == computePartial
    ensures fresh(fx.linearized) && fresh(fx.longest) && fresh(fx.headEntry) && fresh(nodes)
    ensures Valid(fx, ops, nodes, v, g)
  {
    assert |history| == 2 * |ops|;
    hide Inv, Standing, Holds, Congruent, Encodes, Wired, Members, Universe;
    ghost var live: seq<nat>;
    var entry, headEntry, n;
    entry, headEntry, n, nodes, live := PrepareList(history);
    var linearized := NewBitset(n);
    var longest := new Option<seq<nat>>[n](_ => None);
    fx := Fixed(m, history, computePartial, headEntry, linearized, longest);
    v := Vars(entry, map[], [], m.init);
    g := Shadow([Frame([], Config({}, m.init), live, 0)], {}, Tower([live], [], []));
    hide Valid;
    BeginsValid(fx, ops, nodes, v, g, live);
  }

  lemma BeginsValid<S(!new), I(!new), O(!new)>(fx: Fixed<S, I, O>, ops: seq<Operation<I, O>>, nodes: seq<Node<I, O>>, v: Vars<S, I, O>, g: Shadow<S>, live: seq<nat>)
    requires Congruent(fx.m) && Encodes(fx.history, ops)
    requires Holds(fx.history, 0, nodes) && |nodes| == |fx.history| == |live|
    requires forall i :: 0 <= i < |live| ==> live[i] == i
    requires Standing(fx.headEntry, nodes, Tower([live], [], []))
    requires fx.linearized.Length == (|ops| + 63) / 64 && Members(fx.linearized[..]) == {}
    requires fx.longest.Length == |ops| && forall i :: 0 <= i < fx.longest.Length ==> fx.longest[i] == None
    requires v == Vars(if fx.history == [] then null else nodes[0], map[], [], fx.m.init)
    requires g == Shadow([Frame([], Config({}, fx.m.init), live, 0)], {}, Tower([live], [], []))
    ensures Valid(fx, ops, nodes, v, g)
  {
    hide Inv, Standing, Holds, Congruent, Members, Universe;
    HeldIsWired(fx.history, ops, nodes);
    Search.Start(fx.m, fx.history, ops, fx.computePartial, live, fx.longest[..]);
  }

  /** Moves the cursor past a call the model refuses, or whose child is remembered. */
  method Skip<S(==,!new), I(!new), O(!new)>(fx: Fixed<S, I, O>, v: Vars<S, I, O>, ghost ops: seq<Operation<I, O>>, ghost nodes: seq<Node<I, O>>, ghost g: Shadow<S>)
    returns (v': Vars<S, I, O>, ghost g': Shadow<S>)
    requires Valid(fx, ops, nodes, v, g) && Last(g.frames).live != [] && v.entry.matching != null
    requires var f := Last(g.frames);
             && f.live[f.idx] < |fx.history| && Chosen(fx.history, f) < |ops|
             && (StepAt(fx.m, ops, v.state, Chosen(fx.history, f)).0 ==>
                   exists u :: Config(f.config.done + {Chosen(fx.history, f)}, u) in g.memo && fx.m.equal(StepAt(fx.m, ops, v.state, Chosen(fx.history, f)).1, u))
    ensures Valid(fx, ops, nodes, v', g')
    ensures g' == g.(frames := Advanced(g.frames)) && v'.cache == v.cache
  {
    hide Congruent, Inv, Wired, Standing, Remembers, Members, Universe;
    ghost var j := AtCursor(fx.m, fx.history, ops, fx.computePartial, g.frames, g.memo, fx.longest[..], nodes);
    Along(fx.headEntry, nodes, g.t);
    Search.Advance(fx.m, fx.history, ops, fx.computePartial, g.frames, g.memo, fx.longest[..]);
    v' := v.(entry := v.entry.next);
    g' := g.(frames := Advanced(g.frames));
  }

  /** The levels once the call under the cursor is placed, its return being the j-th in
      the list. */
  ghost function Placed<S, I, O>(m: Model<S, I, O>, h: seq<Entry<I, O>>, ops: seq<Operation<I, O>>, g: Shadow<S>, j: nat): Shadow<S>
    requires |g.frames| > 0 && |g.t.lists| > 0
    requires var f := Last(g.frames); f.idx < j < |f.live| && f.live[f.idx] < |h| && Chosen(h, f) < |ops| && Top(g.t) == f.live
  {
    var f := Last(g.frames);
    var c := Child(m, ops, f.config, Chosen(h, f));
    Shadow(g.frames + [Frame(f.path + [Chosen(h, f)], c, Unlist(f.live, f.idx, j), 0)], g.memo + {c}, EntryList.Push(g.t, f.idx, j))
  }

  /** What a search that can place the call under its cursor looks like. */
  lemma ReadyToPlace<S(!new), I(!new), O(!new)>(fx: Fixed<S, I, O>, ops: seq<Operation<I, O>>, nodes: seq<Node<I, O>>, v: Vars<S, I, O>, g: Shadow<S>) returns (j: nat)
    requires Valid(fx, ops, nodes, v, g) && Last(g.frames).live != [] && v.entry.matching != null
    requires var f := Last(g.frames); f.live[f.idx] < |fx.history| && Chosen(fx.history, f) < |ops|
    requires StepAt(fx.m, ops, v.state, Chosen(fx.history, Last(g.frames))).0
    ensures var f := Last(g.frames);
      && |g.t.lists| > 0 && Top(g.t) == f.live && f.idx < j < |f.live|
      && v.entry.id == Chosen(fx.history, f) && v.state == f.config.state
      && Chosen(fx.history, f) < 64 * fx.linearized.Length
      && f.live[j] < |nodes| && v.entry.matching == nodes[f.live[j]]
    ensures var g' := Placed(fx.m, fx.history, ops, g, j);
      && Inv(fx.m, fx.history, ops, fx.computePartial, g'.frames, g'.memo, fx.longest[..])
      && g'.memo <= Universe(fx.m, ops)
  {
    hide Congruent, Wired, Standing, Remembers, Members, Universe;
    j := AtCursor(fx.m, fx.history, ops, fx.computePartial, g.frames, g.memo, fx.longest[..], nodes);
    ChildInUniverse(fx.m, fx.history, ops, g.frames);
    hide Inv;
    Search.Push(fx.m, fx.history, ops, fx.computePartial, g.frames, g.memo, fx.longest[..], j);
  }

  /** Remembers the child, puts the call on the stack and takes its pair out of the list. */
  method Place<S(==,!new), I(!new), O(!new)>(fx: Fixed<S, I, O>, v: Vars<S, I, O>, newLinearized: array<Word>, newState: S,
                                             ghost ops: seq<Operation<I, O>>, ghost nodes: seq<Node<I, O>>, ghost g: Shadow<S>)
    returns (v': Vars<S, I, O>, ghost g': Shadow<S>)
    requires Valid(fx, ops, nodes, v, g) && Last(g.frames).live != [] && v.entry.matching != null
    requires var f := Last(g.frames);
             && f.live[f.idx] < |fx.history| && Chosen(fx.history, f) < |ops|
             && StepAt(fx.m, ops, v.state, Chosen(fx.history, f)) == (true, newState)
             && newLinearized != fx.linearized && newLinearized.Length == fx.linearized.Length
             && Members(newLinearized[..]) == f.config.done + {Chosen(fx.history, f)}
    modifies fx.linearized, fx.headEntry, nodes
    ensures Valid(fx, ops, nodes, v', g')
    ensures var f := Last(g.frames); g'.memo == g.memo + {Child(fx.m, ops, f.config, Chosen(fx.history, f))}
    ensures Arrays(v'.cache) == Arrays(v.cache) + {newLinearized}
  {
    hide Congruent, Inv, Wired, Standing, Remembers, Members, Universe, Aligned, Follows;
    ghost var f := Last(g.frames);
    ghost var j := ReadyToPlace(fx, ops, nodes, v, g);
    g' := Placed(fx.m, fx.history, ops, g, j);
    var cache := FileEntry(v.cache, CacheEntry(newLinearized, newState), g.memo);
    var calls := v.calls + [CallsEntry(v.entry, v.state)];
    assert Remembers(cache, fx.linearized.Length, g'.memo);
    Set(fx.linearized, v.entry.id);
    LiftPair(v.entry, fx.headEntry, nodes, g.t, f.idx, j);
    Along(fx.headEntry, nodes, g'.t);
    v' := Vars(fx.headEntry.next, cache, calls, newState);
    PlacedList(nodes, v, g, g', j);
    assert Top(g'.t) == Last(g'.frames).live;
    assert CursorOk(nodes, v', g');
    assert CacheOk(fx.linearized, v'.cache, g');
  }

  lemma PlacedList<S, I, O>(nodes: seq<Node<I, O>>, v: Vars<S, I, O>, g: Shadow<S>, g': Shadow<S>, j: nat)
    requires Aligned(g.t, g.frames) && Follows(nodes, v.calls, g.frames)
    requires |g.frames| > 0 && |g.t.lists| > 0 && CursorOk(nodes, v, g)
    requires var f := Last(g.frames);
      && f.idx < j < |f.live| && Top(g.t) == f.live
      && |g'.frames| == |g.frames| + 1 && g'.frames[..|g.frames|] == g.frames
      && Last(g'.frames).live == Unlist(f.live, f.idx, j)
      && g'.t == EntryList.Push(g.t, f.idx, j)
    ensures Aligned(g'.t, g'.frames) && Follows(nodes, v.calls + [CallsEntry(v.entry, v.state)], g'.frames)
  {
    assert forall k :: 0 <= k < |g.frames| ==> g'.frames[k] == g'.frames[..|g.frames|][k];
  }

  /** The lists one level up. */
  ghost function Lower(t: Tower): Tower
    requires |t.lists| > 1 && |t.calls| > 0 && |t.rets| > 0
  {
    Tower(t.lists[..|t.lists| - 1], t.calls[..|t.calls| - 1], t.rets[..|t.rets| - 1])
  }

  lemma LowerPush(t: Tower, n: nat)
    requires Stacked(t, n) && |t.calls| > 0
    ensures Stacked(Lower(t), n)
    ensures var k := |t.calls| - 1;
      && Top(Lower(t)) == t.lists[k]
      && t.calls[k] < t.rets[k] < |t.lists[k]|
      && t == EntryList.Push(Lower(t), t.calls[k], t.rets[k])
  {
    var k := |t.calls| - 1;
    var s := Lower(t);
    assert TakenAt(t, k);
    forall i | 0 <= i < |s.calls| ensures TakenAt(s, i) {
      assert TakenAt(t, i);
    }
  }

  /** The search one level up, past the call that led down. */
  ghost function BackedOut<S>(g: Shadow<S>): Shadow<S>
    requires |g.frames| > 1 && |g.t.lists| > 1 && |g.t.calls| > 0 && |g.t.rets| > 0
  {
    Shadow(Advanced(g.frames[..|g.frames| - 1]), g.memo, Lower(g.t))
  }

  /** The second of the two positions taken out on the way down is the return of the call. */
  lemma ReturnWaits<S, I, O>(m: Model<S, I, O>, h: seq<Entry<I, O>>, ops: seq<Operation<I, O>>, f: Frame<S>, below: Frame<S>, j: nat)
    requires Encodes(h, ops) && LiveAt(h, f.config.done, f.live) && LiveAt(h, below.config.done, below.live)
    requires Descends(m, h, ops, f, below)
    requires f.idx < j < |f.live| && below.live == Unlist(f.live, f.idx, j)
    ensures f.live[j] == ops[Chosen(h, f)].ret
  {
    var x := Chosen(h, f);
    var k0 := ReturnFollows(h, ops, f.config.done, f.live, f.idx);
    if k0 != j {
      assert x in below.config.done && h[f.live[k0]].id == x;
      UnlistHas(f.live, f.idx, j, k0);
    }
  }

  lemma UnlistHas(live: seq<nat>, i: nat, j: nat, k: nat)
    requires i < j < |live| && k < |live| && k != i && k != j
    ensures live[k] in Unlist(live, i, j)
  {
    UnlistAt(live, i, j);
    var k' := if k < i then k else if k < j then k - 1 else k - 2;
    assert Unlist(live, i, j)[k'] == live[Source(i, j, k')];
  }

  /** The level above the current one, seen from the stack and from the list. */
  ghost predicate SeesAbove<S, I, O>(ops: seq<Operation<I, O>>, nodes: seq<Node<I, O>>, calls: seq<CallsEntry<S, I, O>>, g: Shadow<S>)
    requires var n := |calls|; n > 0 && |g.frames| == n + 1 && |g.t.rets| == n
  {
    var n := |calls|;
    var f := g.frames[n-1];
    && f.idx + 1 < |f.live| && (forall i :: 0 <= i < |f.live| ==> f.live[i] < |nodes|)
    && var e := nodes[f.live[f.idx]];
    && calls[n-1] == CallsEntry(e, f.config.state)
    && 0 <= e.id < |ops| && f.config.done == g.frames[n].config.done - {e.id}
    && f.idx < g.t.rets[n-1] < |f.live| && e.matching == nodes[f.live[g.t.rets[n-1]]]
  }

  lemma LevelAbove<S(!new), I(!new), O(!new)>(m: Model<S, I, O>, h: seq<Entry<I, O>>, ops: seq<Operation<I, O>>,
                                              nodes: seq<Node<I, O>>, calls: seq<CallsEntry<S, I, O>>, g: Shadow<S>)
    requires Levels(m, h, ops, g.frames) && Wired(h, ops, nodes)
    requires Aligned(g.t, g.frames) && Follows(nodes, calls, g.frames) && Stacked(g.t, |nodes|) && |calls| > 0
    ensures SeesAbove(ops, nodes, calls, g)
  {
    var n := |calls|;
    var f := g.frames[n-1];
    assert Level(m, h, ops, f) && Level(m, h, ops, g.frames[n]);
    assert Descends(m, h, ops, f, g.frames[n]);
    assert TakenAt(g.t, n - 1);
    hide Levels, Level, Reached, Stacked;
    ReturnWaits(m, h, ops, f, g.frames[n], g.t.rets[n-1]);
  }

  lemma BackedOutList<S, I, O>(nodes: seq<Node<I, O>>, calls: seq<CallsEntry<S, I, O>>, g: Shadow<S>)
    requires Aligned(g.t, g.frames) && Follows(nodes, calls, g.frames) && Stacked(g.t, |nodes|) && |calls| > 0
    ensures var n := |calls|;
      && Stacked(Lower(g.t), |nodes|) && Top(Lower(g.t)) == g.frames[n-1].live
      && g.frames[n-1].idx < g.t.rets[n-1] < |g.frames[n-1].live|
      && g.t == EntryList.Push(Lower(g.t), g.frames[n-1].idx, g.t.rets[n-1])
      && Aligned(BackedOut(g).t, BackedOut(g).frames) && Follows(nodes, calls[..n-1], BackedOut(g).frames)
  {
    LowerPush(g.t, |nodes|);
  }

  /** What a search about to back out looks like. */
  ghost predicate CanBackOut<S, I, O>(fx: Fixed<S, I, O>, ops: seq<Operation<I, O>>, nodes: seq<Node<I, O>>, v: Vars<S, I, O>, g: Shadow<S>) {
    var n := |v.calls|;
    && n > 0 && |g.frames| == n + 1 && |g.t.lists| == n + 1 && |g.t.calls| == n && |g.t.rets| == n
    && |Last(g.frames).path| == n && Within(Last(g.frames).path, |ops|) && fx.longest.Length == |ops|
    && (forall k :: 0 <= k < n ==> v.calls[k].entry.id == Last(g.frames).path[k])
    && (var f := Last(g.frames);
        f.idx < |f.live| && f.live[f.idx] < |fx.history| && fx.history[f.live[f.idx]].ReturnEntry?)
    && CanReturnTo(fx.linearized.Length, nodes, v, g)
    && Aligned(BackedOut(g).t, BackedOut(g).frames) && Follows(nodes, v.calls[..n-1], BackedOut(g).frames)
  }

  ghost predicate CanReturnTo<S, I, O>(words: nat, nodes: seq<Node<I, O>>, v: Vars<S, I, O>, g: Shadow<S>)
    requires var n := |v.calls|; n > 0 && |g.frames| == n + 1 && |g.t.lists| == n + 1 && |g.t.calls| == n && |g.t.rets| == n
  {
    var n := |v.calls|;
    var f := g.frames[n-1];
    var j := g.t.rets[n-1];
    && f.idx + 1 < |f.live| && (forall i :: 0 <= i < |f.live| ==> f.live[i] < |nodes|)
    && v.calls[n-1] == CallsEntry(nodes[f.live[f.idx]], f.config.state)
    && 0 <= v.calls[n-1].entry.id < 64 * words
    && f.config.done == g.frames[n].config.done - {v.calls[n-1].entry.id}
    && f.idx < j < |f.live| && v.calls[n-1].entry.matching == nodes[f.live[j]]
    && Stacked(Lower(g.t), |nodes|) && Top(Lower(g.t)) == f.live
    && g.t == EntryList.Push(Lower(g.t), f.idx, j)
  }

  lemma ReadyToReturn<S(!new), I(!new), O(!new)>(m: Model<S, I, O>, h: seq<Entry<I, O>>, ops: seq<Operation<I, O>>, words: nat,
                                                 nodes: seq<Node<I, O>>, v: Vars<S, I, O>, g: Shadow<S>)
    requires Levels(m, h, ops, g.frames) && Wired(h, ops, nodes)
    requires Aligned(g.t, g.frames) && Follows(nodes, v.calls, g.frames) && Stacked(g.t, |nodes|) && |v.calls| > 0
    requires |ops| <= 64 * words
    ensures var n := |v.calls|; |g.frames| == n + 1 && |g.t.lists| == n + 1 && |g.t.calls| == n && |g.t.rets| == n
    ensures CanReturnTo(words, nodes, v, g)
    ensures Aligned(BackedOut(g).t, BackedOut(g).frames) && Follows(nodes, v.calls[..|v.calls| - 1], BackedOut(g).frames)
  {
    hide Levels, Wired, Stacked;
    assert |g.frames| == |v.calls| + 1 && |g.t.lists| == |g.frames| && |g.t.calls| == |v.calls| && |g.t.rets| == |v.calls|;
    hide Aligned, Follows, BackedOut;
    LevelAbove(m, h, ops, nodes, v.calls, g);
    BackedOutList(nodes, v.calls, g);
  }

  lemma ReadyToBackOut<S(!new), I(!new), O(!new)>(fx: Fixed<S, I, O>, ops: seq<Operation<I, O>>, nodes: seq<Node<I, O>>, v: Vars<S, I, O>, g: Shadow<S>)
    requires Valid(fx, ops, nodes, v, g) && Last(g.frames).live != [] && v.entry.matching == null && |v.calls| > 0
    ensures CanBackOut(fx, ops, nodes, v, g)
  {
    hide Congruent, Inv, Wired, Standing, Remembers, Members, Universe, Aligned, Follows, CacheOk, CanReturnTo;
    var j := AtCursor(fx.m, fx.history, ops, fx.computePartial, g.frames, g.memo, fx.longest[..], nodes);
    StackUnderInv(fx.m, fx.history, ops, fx.computePartial, fx.linearized.Length, fx.longest[..], fx.headEntry, nodes, v, g);
  }

  lemma StackUnderInv<S(!new), I(!new), O(!new)>(m: Model<S, I, O>, h: seq<Entry<I, O>>, ops: seq<Operation<I, O>>, partial: bool, words: nat, longest: Longest,
                                                 head: Node<I, O>, nodes: seq<Node<I, O>>, v: Vars<S, I, O>, g: Shadow<S>)
    requires Inv(m, h, ops, partial, g.frames, g.memo, longest) && Wired(h, ops, nodes) && Standing(head, nodes, g.t)
    requires Aligned(g.t, g.frames) && Follows(nodes, v.calls, g.frames) && |v.calls| > 0
    requires |ops| <= 64 * words
    ensures |longest| == |ops|
    ensures var n := |v.calls|; |g.frames| == n + 1 && |g.t.lists| == n + 1 && |g.t.calls| == n && |g.t.rets| == n
    ensures var path := Last(g.frames).path;
            && |path| == |v.calls| && Within(path, |ops|)
            && forall k :: 0 <= k < |v.calls| ==> v.calls[k].entry.id == path[k]
    ensures CanReturnTo(words, nodes, v, g)
    ensures Aligned(BackedOut(g).t, BackedOut(g).frames) && Follows(nodes, v.calls[..|v.calls| - 1], BackedOut(g).frames)
  {
    hide Levels, Wired, Stacked, Aligned, Follows, CanReturnTo, AllScanned, MemoClosed, AllWait, Linked;
    PathIsStack(m, h, ops, g.frames, nodes, v.calls);
    ReadyToReturn(m, h, ops, words, nodes, v, g);
  }

  /** Enters the path if partial results are wanted, takes the last call off the stack,
      puts its pair back into the list and steps past it. */
  method BackOut<S(==,!new), I(!new), O(!new)>(fx: Fixed<S, I, O>, v: Vars<S, I, O>,
                                               ghost ops: seq<Operation<I, O>>, ghost nodes: seq<Node<I, O>>, ghost g: Shadow<S>)
    returns (v': Vars<S, I, O>, ghost g': Shadow<S>)
    requires Valid(fx, ops, nodes, v, g) && Last(g.frames).live != [] && v.entry.matching == null && |v.calls| > 0
    modifies fx.linearized, fx.longest, fx.headEntry, nodes
    ensures Valid(fx, ops, nodes, v', g')
    ensures |g.frames| > 1 && g'.frames == Advanced(g.frames[..|g.frames| - 1]) && g'.memo == g.memo && v'.cache == v.cache
  {
    hide Congruent, Inv, Wired, Standing, Stacked, Remembers, Members, Universe, Aligned, Follows;
    ReadyToBackOut(fx, ops, nodes, v, g);
    ghost var n := |v.calls|;
    ghost var f := g.frames[n-1];
    g' := BackedOut(g);
    ghost var before := fx.longest[..];
    ghost var path := Last(g.frames).path;
    if fx.computePartial {
      RecordPath(fx.longest, v.calls, path);
    }
    Search.Pop(fx.m, fx.history, ops, fx.computePartial, g.frames, g.memo, before, fx.longest[..]);
    var callsTop := v.calls[|v.calls| - 1];
    var entry := callsTop.entry;
    Clear(fx.linearized, entry.id);
    UnliftPair(entry, fx.headEntry, nodes, g'.t, f.idx, g.t.rets[n-1]);
    Along(fx.headEntry, nodes, g'.t);
    v' := Vars(entry.next, v.cache, v.calls[..|v.calls| - 1], callsTop.state);
  }

  /** Tries the call under the cursor: places it if the model accepts it and the cache does
      not know where it leads, and passes it otherwise. */
  method TryCall<S(==,!new), I(!new), O(!new)>(fx: Fixed<S, I, O>, v: Vars<S, I, O>,
                                               ghost ops: seq<Operation<I, O>>, ghost nodes: seq<Node<I, O>>, ghost g: Shadow<S>)
    returns (v': Vars<S, I, O>, ghost g': Shadow<S>)
    requires Valid(fx, ops, nodes, v, g) && Last(g.frames).live != [] && v.entry.matching != null
    modifies fx.linearized, fx.headEntry, nodes
    ensures Valid(fx, ops, nodes, v', g')
    ensures g.memo < g'.memo || (g' == g.(frames := Advanced(g.frames)) && Last(g.frames).idx < |Last(g.frames).live|)
  {
    hide Congruent, Inv, Wired, Standing, Remembers, Members, Universe, Aligned, Follows;
    ghost var f := Last(g.frames);
    ghost var j := AtCursor(fx.m, fx.history, ops, fx.computePartial, g.frames, g.memo, fx.longest[..], nodes);
    ghost var x := Chosen(fx.history, f);
    var matching := v.entry.matching;
    var (ok, newState) := fx.m.step(v.state, v.entry.value.input, matching.value.output);
    assert StepAt(fx.m, ops, v.state, x) == (ok, newState);
    if ok {
      var newLinearized := Clone(fx.linearized);
      Set(newLinearized, v.entry.id);
      var known := CacheContains(fx.m, v.cache, CacheEntry(newLinearized, newState), g.memo);
      if !known {
        Unknown(fx.m, f.config.done + {x}, newState, g.memo);
        v', g' := Place(fx, v, newLinearized, newState, ops, nodes, g);
      } else {
        v', g' := Skip(fx, v, ops, nodes, g);
      }
    } else {
      v', g' := Skip(fx, v, ops, nodes, g);
    }
  }

  lemma Unknown<S(!new), I(!new), O(!new)>(m: Model<S, I, O>, done: set<nat>, s: S, memo: set<Config<S>>)
    requires Congruent(m)
    requires !exists t :: Config(done, t) in memo && m.equal(s, t)
    ensures Config(done, s) !in memo
  {
    assert m.equal(s, s);
  }

  /** The list is empty exactly when nothing is left to place. */
  lemma AtHead<S(!new), I(!new), O(!new)>(fx: Fixed<S, I, O>, ops: seq<Operation<I, O>>, nodes: seq<Node<I, O>>, v: Vars<S, I, O>, g: Shadow<S>)
    requires Valid(fx, ops, nodes, v, g)
    ensures |g.frames| > 0 && g.memo <= Universe(fx.m, ops)
    ensures fx.headEntry.next != null <==> Last(g.frames).live != []
    ensures Last(g.frames).live != [] ==> v.entry != null && Last(g.frames).idx < |Last(g.frames).live|
    ensures fx.longest.Length == |ops| && RecordsValid(fx.m, ops, fx.longest[..])
  {
    Along(fx.headEntry, nodes, g.t);
  }

  /** With nothing on the stack and a return under the cursor, the search has failed. */
  lemma Hopeless<S(!new), I(!new), O(!new)>(fx: Fixed<S, I, O>, ops: seq<Operation<I, O>>, nodes: seq<Node<I, O>>, v: Vars<S, I, O>, g: Shadow<S>)
    requires Valid(fx, ops, nodes, v, g)
    requires Last(g.frames).live != [] && v.entry.matching == null && |v.calls| == 0
    ensures !Linearizable(fx.m, ops)
    ensures fx.computePartial ==> Maximal(fx.m, ops, fx.longest[..])
  {
    hide Congruent, Inv, Wired, Standing, Remembers, Members, Universe, Aligned, CacheOk;
    var j := AtCursor(fx.m, fx.history, ops, fx.computePartial, g.frames, g.memo, fx.longest[..], nodes);
    Exhausted(fx.m, fx.history, ops, fx.computePartial, g.frames, g.memo, fx.longest[..]);
  }

  /** With the list empty, the stack is a linearization. */
  lemma Complete<S(!new), I(!new), O(!new)>(fx: Fixed<S, I, O>, ops: seq<Operation<I, O>>, nodes: seq<Node<I, O>>, v: Vars<S, I, O>, g: Shadow<S>)
    requires Valid(fx, ops, nodes, v, g) && Last(g.frames).live == []
    ensures Linearization(fx.m, ops, Last(g.frames).path)
    ensures var path := Last(g.frames).path;
      |path| == |v.calls| && forall k :: 0 <= k < |v.calls| ==> v.calls[k].entry.id == path[k]
  {
    hide Congruent, Wired, Standing, Remembers, Members, Universe, Aligned, CacheOk, AllScanned, MemoClosed, Levels;
    PathIsStack(fx.m, fx.history, ops, g.frames, nodes, v.calls);
    hide Inv;
    Completed(fx.m, fx.history, ops, fx.computePartial, g.frames, g.memo, fx.longest[..]);
  }

  lemma CompleteIsMaximal<S, I, O>(m: Model<S, I, O>, h: seq<Entry<I, O>>, ops: seq<Operation<I, O>>, path: seq<nat>, longest: Longest)
    requires Linearization(m, ops, path)
    requires |longest| == |ops| && forall x :: 0 <= x < |longest| ==> longest[x] == Some(path)
    requires Encodes(h, ops)
    ensures Maximal(m, ops, longest) && RecordsValid(m, ops, longest) && Linearizable(m, ops)
  {
    CompleteIffPartial(m, ops, path);
    DistinctCover(path, |ops|);
    forall order, x | PartialLinearization(m, ops, order) && x in order
      ensures x < |longest| && |longest[x].value| >= |order|
    {
      DistinctCover(order, |ops|);
    }
  }

  /** What the search has left: configurations it may still remember, levels it may still
      back out of, and entries ahead of the cursor. */
  ghost function Left<S, I, O>(m: Model<S, I, O>, ops: seq<Operation<I, O>>, g: Shadow<S>): nat {
    |Universe(m, ops) - g.memo|
  }

  ghost function Deep<S>(g: Shadow<S>): nat {
    |g.frames|
  }

  ghost function Ahead<S>(g: Shadow<S>): nat {
    if |g.frames| > 0 && Last(g.frames).idx <= |Last(g.frames).live| then |Last(g.frames).live| - Last(g.frames).idx else 0
  }

  /** One round of the loop: it fails for good, or leaves less to do. */
  method Iterate<S(==,!new), I(!new), O(!new)>(fx: Fixed<S, I, O>, v: Vars<S, I, O>,
                                               ghost ops: seq<Operation<I, O>>, ghost nodes: seq<Node<I, O>>, ghost g: Shadow<S>)
    returns (stuck: bool, v': Vars<S, I, O>, ghost g': Shadow<S>)
    requires Valid(fx, ops, nodes, v, g) && fx.headEntry.next != null
    modifies fx.linearized, fx.longest, fx.headEntry, nodes
    ensures Valid(fx, ops, nodes, v', g')
    ensures stuck ==> !Linearizable(fx.m, ops) && (fx.computePartial ==> Maximal(fx.m, ops, fx.longest[..])) && RecordsValid(fx.m, ops, fx.longest[..])
    ensures !stuck ==> (Left(fx.m, ops, g), Deep(g), Ahead(g) decreases to Left(fx.m, ops, g'), Deep(g'), Ahead(g'))
  {
    hide Valid, Congruent, Encodes, Universe, Maximal, RecordsValid, Linearizable, Linearization;
    AtHead(fx, ops, nodes, v, g);
    if v.entry.matching != null {
      v', g' := TryCall(fx, v, ops, nodes, g);
      AtHead(fx, ops, nodes, v', g');
      if g.memo < g'.memo {
        SetShrinks(Universe(fx.m, ops), g.memo, g'.memo);
      }
    } else {
      if |v.calls| == 0 {
        Hopeless(fx, ops, nodes, v, g);
        return true, v, g;
      }
      v', g' := BackOut(fx, v, ops, nodes, g);
    }
    stuck := false;
  }

  datatype Outcome = Found | Failed | Killed

  /** The loop. kill(i) is the value of the shared flag as the i-th round reads it. */
  method Explore<S(==,!new), I(!new), O(!new)>(fx: Fixed<S, I, O>, start: Vars<S, I, O>, kill: nat -> bool,
                                               ghost ops: seq<Operation<I, O>>, ghost nodes: seq<Node<I, O>>, ghost shadow: Shadow<S>)
    returns (outcome: Outcome, v: Vars<S, I, O>, ghost g: Shadow<S>)
    requires Valid(fx, ops, nodes, start, shadow)
    modifies fx.linearized, fx.longest, fx.headEntry, nodes
    ensures Valid(fx, ops, nodes, v, g)
    ensures outcome.Killed? ==> exists i :: kill(i)
    ensures outcome.Failed? ==> !Linearizable(fx.m, ops) && (fx.computePartial ==> Maximal(fx.m, ops, fx.longest[..]))
    ensures outcome.Found? ==> fx.headEntry.next == null
  {
    hide Valid, Congruent, Encodes, Universe, Maximal, RecordsValid, Linearizable, Linearization, Left, Deep, Ahead;
    v, g := start, shadow;
    var round := 0;
    while fx.headEntry.next != null
      invariant Valid(fx, ops, nodes, v, g)
      decreases Left(fx.m, ops, g), Deep(g), Ahead(g)
    {
      if kill(round) {
        return Killed, v, g;
      }
      round := round + 1;
      var stuck;
      stuck, v, g := Iterate(fx, v, ops, nodes, g);
      if stuck {
        return Failed, v, g;
      }
    }
    return Found, v, g;
  }

  /** The checker on one partition. */
  method CheckSingle<S(==,!new), I(!new), O(!new)>(
    m: Model<S, I, O>, history: seq<Entry<I, O>>, computePartial: bool, kill: nat -> bool,
    ghost ops: seq<Operation<I, O>>)
    returns (ok: bool, longest: Longest, ghost killed: bool)
    requires Congruent(m)
    requires Encodes(history, ops)
    ensures killed ==> !ok && exists i :: kill(i)
    ensures !killed ==> (ok <==> Linearizable(m, ops))
    ensures RecordsValid(m, ops, longest)
    ensures !killed && computePartial ==> Maximal(m, ops, longest)
    ensures ok ==> forall x :: 0 <= x < |ops| ==> longest[x].Some? && Linearization(m, ops, longest[x].value)
  {
    hide Valid, Congruent, Encodes, Universe, Maximal, RecordsValid, Linearizable, Linearization;
    ghost var nodes, g;
    var fx, v, outcome;
    fx, v, nodes, g := Begin(m, history, computePartial, ops);
    outcome, v, g := Explore(fx, v, kill, ops, nodes, g);
    AtHead(fx, ops, nodes, v, g);
    match outcome
    case Killed =>
      return false, fx.longest[..], true;
    case Failed =>
      return false, fx.longest[..], false;
    case Found =>
      Complete(fx, ops, nodes, v, g);
      ghost var path := Last(g.frames).path;
      var ids := Ids(v.calls, path);
      RecordAll(fx.longest, ids);
      CompleteIsMaximal(m, history, ops, path, fx.longest[..]);
      return true, fx.longest[..], false;
  }

  /** A complete linearization is on record for every operation. */
  method RecordAll(longest: array<Option<seq<nat>>>, ids: seq<nat>)
    modifies longest
    ensures forall x :: 0 <= x < longest.Length ==> longest[x] == Some(ids)
  {
    for i := 0 to longest.Length
      invariant forall x :: 0 <= x < i ==> longest[x] == Some(ids)
    {
      longest[i] := Some(ids);
    }
  }

  lemma SetShrinks<T>(u: set<T>, a: set<T>, b: set<T>)
    requires a < b <= u
    ensures |u - b| < |u - a|
  {
    var x :| x in b && x !in a;
    assert u - b < u - a;
    SubsetCount(u - b, u - a);
    assert x in u - a && x !in u - b;
  }
}
