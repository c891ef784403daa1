/** The memoised backtracking search on values: what a configuration of the search is,
    what it has ruled out, and why each of its moves keeps that true. */
module Search {
  import opened Linearizability

  datatype Option<T> = None | Some(value: T)

  /** One line of a history as the checker sees it: the call or the return of an id. */
  datatype Entry<I, O> =
    | CallEntry(id: nat, input: I, time: int, clientId: int)
    | ReturnEntry(id: nat, output: O, time: int, clientId: int)

  /** The entries h are the calls and returns of ops, numbered 0..n-1, each call ahead of
      its return; the times of ops are the positions in h. */
  ghost predicate Encodes<I, O>(h: seq<Entry<I, O>>, ops: seq<Operation<I, O>>) {
    && |h| == 2 * |ops|
    && (forall i :: 0 <= i < |ops| ==> 0 <= ops[i].call < ops[i].ret < |h|)
    && (forall i :: 0 <= i < |ops| ==>
          && h[ops[i].call].CallEntry? && h[ops[i].call].id == i && h[ops[i].call].input == ops[i].input
          && h[ops[i].ret].ReturnEntry? && h[ops[i].ret].id == i && h[ops[i].ret].output == ops[i].output)
    && (forall p :: 0 <= p < |h| ==>
          h[p].id < |ops| && p == (if h[p].CallEntry? then ops[h[p].id].call else ops[h[p].id].ret))
  }

  /** A set of operations already placed, and the state they led to. */
  datatype Config<S> = Config(done: set<nat>, state: S)

  /** One level of the search: the operations placed so far, in order, the configuration
      they led to, the positions still in the list, and how far the cursor has come. */
  datatype Frame<S> = Frame(path: seq<nat>, config: Config<S>, live: seq<nat>, idx: nat)

  type Longest = seq<Option<seq<nat>>>

  /** live lists, in order, the positions whose id is not done. */
  ghost predicate LiveAt<I, O>(h: seq<Entry<I, O>>, done: set<nat>, live: seq<nat>) {
    && (forall i, j :: 0 <= i < j < |live| ==> live[i] < live[j])
    && (forall i :: 0 <= i < |live| ==> live[i] < |h| && h[live[i]].id !in done)
    && (forall p :: 0 <= p < |h| && h[p].id !in done ==> p in live)
  }

  /** No completion starts at c, and (if partial results are kept) every operation on any
      path through c has on record a partial linearization at least as long as the path. */
  ghost predicate Finished<S, I, O>(m: Model<S, I, O>, ops: seq<Operation<I, O>>, partial: bool, longest: Longest, c: Config<S>) {
    forall tau :: Extends(m, ops, c.done, c.state, tau) ==>
      && |c.done| + |tau| < |ops|
      && (partial ==> Recorded(longest, c.done, tau))
  }

  ghost predicate Recorded(longest: Longest, done: set<nat>, tau: seq<nat>) {
    forall x :: x in done || x in tau ==>
      x < |longest| && longest[x].Some? && |longest[x].value| >= |done| + |tau|
  }

  function Child<S, I, O>(m: Model<S, I, O>, ops: seq<Operation<I, O>>, c: Config<S>, x: nat): Config<S>
    requires x < |ops|
  {
    Config(c.done + {x}, StepAt(m, ops, c.state, x).1)
  }

  /** Everything the cursor has passed in f is a call whose branch is closed. */
  ghost predicate Scanned<S, I, O>(m: Model<S, I, O>, h: seq<Entry<I, O>>, ops: seq<Operation<I, O>>, partial: bool, longest: Longest, f: Frame<S>)
    requires Encodes(h, ops) && LiveAt(h, f.config.done, f.live)
  {
    && f.idx <= |f.live|
    && forall j :: 0 <= j < f.idx ==>
         && h[f.live[j]].CallEntry?
         && (StepAt(m, ops, f.config.state, h[f.live[j]].id).0 ==>
               Finished(m, ops, partial, longest, Child(m, ops, f.config, h[f.live[j]].id)))
  }

  ghost predicate AllScanned<S, I, O>(m: Model<S, I, O>, h: seq<Entry<I, O>>, ops: seq<Operation<I, O>>, partial: bool, longest: Longest, frames: seq<Frame<S>>)
    requires Encodes(h, ops)
  {
    forall k :: 0 <= k < |frames| ==>
      LiveAt(h, frames[k].config.done, frames[k].live) && Scanned(m, h, ops, partial, longest, frames[k])
  }

  /** The id under the cursor of f. */
  function Chosen<S, I, O>(h: seq<Entry<I, O>>, f: Frame<S>): nat
    requires f.idx < |f.live| && f.live[f.idx] < |h|
  {
    h[f.live[f.idx]].id
  }

  /** g is the level below f, reached by placing the call under f's cursor. */
  ghost predicate Descends<S, I, O>(m: Model<S, I, O>, h: seq<Entry<I, O>>, ops: seq<Operation<I, O>>, f: Frame<S>, g: Frame<S>)
    requires Encodes(h, ops)
  {
    && f.idx < |f.live| && f.live[f.idx] < |h|
    && h[f.live[f.idx]].CallEntry?
    && StepAt(m, ops, f.config.state, Chosen(h, f)).0
    && g.config == Child(m, ops, f.config, Chosen(h, f))
    && g.path == f.path + [Chosen(h, f)]
  }

  /** The path of f is a partial linearization that leads to its configuration. */
  ghost predicate Reached<S, I, O>(m: Model<S, I, O>, ops: seq<Operation<I, O>>, f: Frame<S>) {
    && Extends(m, ops, {}, m.init, f.path)
    && Within(f.path, |ops|)
    && Elements(f.path) == f.config.done
    && After(m, ops, m.init, f.path) == f.config.state
    && |f.config.done| == |f.path|
  }

  ghost predicate Level<S, I, O>(m: Model<S, I, O>, h: seq<Entry<I, O>>, ops: seq<Operation<I, O>>, f: Frame<S>) {
    LiveAt(h, f.config.done, f.live) && Reached(m, ops, f)
  }

  /** The levels of the search, the last of which holds the cursor. */
  ghost predicate Levels<S, I, O>(m: Model<S, I, O>, h: seq<Entry<I, O>>, ops: seq<Operation<I, O>>, frames: seq<Frame<S>>) {
    && Encodes(h, ops)
    && |frames| > 0
    && (forall k :: 0 <= k < |frames| ==> Level(m, h, ops, frames[k]) && |frames[k].path| == k)
    && (forall k, l :: 0 <= k < |frames| && 0 <= l < |frames| && l == k + 1 ==> Descends(m, h, ops, frames[k], frames[l]))
  }

  function Last<T>(xs: seq<T>): T
    requires |xs| > 0
  {
    xs[|xs| - 1]
  }

  /** Every remembered configuration is closed, or is one the search now stands in. */
  ghost predicate MemoClosed<S, I, O>(m: Model<S, I, O>, ops: seq<Operation<I, O>>, partial: bool, longest: Longest, memo: set<Config<S>>, frames: seq<Frame<S>>) {
    forall c :: c in memo ==> Finished(m, ops, partial, longest, c) || StandsIn(frames, c)
  }

  ghost predicate StandsIn<S>(frames: seq<Frame<S>>, c: Config<S>) {
    exists k :: 0 <= k < |frames| && frames[k].config == c
  }

  /** What is on record are partial linearizations. */
  ghost predicate RecordsValid<S, I, O>(m: Model<S, I, O>, ops: seq<Operation<I, O>>, longest: Longest) {
    && |longest| == |ops|
    && forall x :: 0 <= x < |longest| && longest[x].Some? ==>
         x in longest[x].value && PartialLinearization(m, ops, longest[x].value)
  }

  ghost predicate Inv<S, I, O>(m: Model<S, I, O>, h: seq<Entry<I, O>>, ops: seq<Operation<I, O>>, partial: bool,
                               frames: seq<Frame<S>>, memo: set<Config<S>>, longest: Longest) {
    && Levels(m, h, ops, frames)
    && AllScanned(m, h, ops, partial, longest, frames)
    && MemoClosed(m, ops, partial, longest, memo, frames)
    && RecordsValid(m, ops, longest)
  }

  // ---------------------------------------------------------------------------
  // The list: what stands in it, and that the cursor cannot run off its end.

  /** A call still in the list has its return further down it. */
  lemma ReturnFollows<I, O>(h: seq<Entry<I, O>>, ops: seq<Operation<I, O>>, done: set<nat>, live: seq<nat>, i: nat) returns (j: nat)
    requires Encodes(h, ops) && LiveAt(h, done, live)
    requires i < |live| && h[live[i]].CallEntry?
    ensures i < j < |live| && live[j] == ops[h[live[i]].id].ret
  {
    var q := ops[h[live[i]].id].ret;
    assert h[q].id !in done;
    assert q in live;
    j :| 0 <= j < |live| && live[j] == q;
  }

  function Unlist(live: seq<nat>, i: nat, j: nat): seq<nat>
    requires i < j < |live|
  {
    live[..i] + live[i+1..j] + live[j+1..]
  }

  /** Taking a call and its return out of the list leaves the list of the next level. */
  lemma UnlistIsLive<I, O>(h: seq<Entry<I, O>>, ops: seq<Operation<I, O>>, done: set<nat>, live: seq<nat>, i: nat, j: nat)
    requires Encodes(h, ops) && LiveAt(h, done, live)
    requires i < j < |live| && h[live[i]].CallEntry? && live[j] == ops[h[live[i]].id].ret
    ensures LiveAt(h, done + {h[live[i]].id}, Unlist(live, i, j))
  {
    UnlistAt(live, i, j);
    UnlistDrops(h, ops, done, live, i, j);
    UnlistKeeps(h, ops, done, live, i, j);
  }

  lemma UnlistDrops<I, O>(h: seq<Entry<I, O>>, ops: seq<Operation<I, O>>, done: set<nat>, live: seq<nat>, i: nat, j: nat)
    requires Encodes(h, ops) && LiveAt(h, done, live)
    requires i < j < |live| && h[live[i]].CallEntry? && live[j] == ops[h[live[i]].id].ret
    ensures var out := Unlist(live, i, j);
            forall k :: 0 <= k < |out| ==> out[k] < |h| && h[out[k]].id !in done + {h[live[i]].id}
  {
    var x := h[live[i]].id;
    var out := Unlist(live, i, j);
    UnlistAt(live, i, j);
    forall k | 0 <= k < |out| ensures out[k] < |h| && h[out[k]].id !in done + {x} {
      var p := live[Source(i, j, k)];
      assert p != live[i] && p != live[j];
      assert h[p].id !in done;
      assert p == if h[p].CallEntry? then ops[h[p].id].call else ops[h[p].id].ret;
    }
  }

  lemma UnlistKeeps<I, O>(h: seq<Entry<I, O>>, ops: seq<Operation<I, O>>, done: set<nat>, live: seq<nat>, i: nat, j: nat)
    requires Encodes(h, ops) && LiveAt(h, done, live)
    requires i < j < |live| && h[live[i]].CallEntry? && live[j] == ops[h[live[i]].id].ret
    ensures forall p :: 0 <= p < |h| && h[p].id !in done + {h[live[i]].id} ==> p in Unlist(live, i, j)
  {
    var x := h[live[i]].id;
    var out := Unlist(live, i, j);
    UnlistAt(live, i, j);
    assert h[live[j]].id == x;
    forall p | 0 <= p < |h| && h[p].id !in done + {x} ensures p in out {
      assert p in live;
      var k0 :| 0 <= k0 < |live| && live[k0] == p;
      assert k0 != i && k0 != j;
      var k := if k0 < i then k0 else if k0 < j then k0 - 1 else k0 - 2;
      assert Source(i, j, k) == k0 && out[k] == p;
    }
  }

  /** Where the k-th position of a shortened list stood before. */
  function Source(i: nat, j: nat, k: nat): nat
    requires i < j
  {
    if k < i then k else if k < j - 1 then k + 1 else k + 2
  }

  lemma UnlistAt(live: seq<nat>, i: nat, j: nat)
    requires i < j < |live|
    ensures |Unlist(live, i, j)| == |live| - 2
    ensures forall k :: 0 <= k < |live| - 2 ==> Unlist(live, i, j)[k] == live[Source(i, j, k)]
  {
  }

  // ---------------------------------------------------------------------------
  // Closing branches.

  lemma FinishedGrows<S, I, O>(m: Model<S, I, O>, ops: seq<Operation<I, O>>, partial: bool, before: Longest, after: Longest, c: Config<S>)
    requires Finished(m, ops, partial, before, c)
    requires Grows(before, after)
    ensures Finished(m, ops, partial, after, c)
  {
    forall tau | Extends(m, ops, c.done, c.state, tau) && partial ensures Recorded(after, c.done, tau) {
      assert Recorded(before, c.done, tau);
    }
  }

  /** Records are only ever replaced by longer ones. */
  ghost predicate Grows(before: Longest, after: Longest) {
    && |before| == |after|
    && forall x :: 0 <= x < |before| && before[x].Some? ==>
         after[x].Some? && |before[x].value| <= |after[x].value|
  }

  /** A state the model cannot tell from a closed one is closed too. */
  lemma FinishedCongruent<S(!new), I(!new), O(!new)>(
    m: Model<S, I, O>, ops: seq<Operation<I, O>>, partial: bool, longest: Longest, done: set<nat>, s: S, t: S)
    requires Congruent(m) && m.equal(s, t)
    requires Finished(m, ops, partial, longest, Config(done, t))
    ensures Finished(m, ops, partial, longest, Config(done, s))
  {
    forall tau | Extends(m, ops, done, s, tau)
      ensures |done| + |tau| < |ops| && (partial ==> Recorded(longest, done, tau))
    {
      ExtendsCongruent(m, ops, done, s, t, tau);
    }
  }

  /** Once the cursor stands on a return, whatever may come next has been tried: an
      operation still to come that was called after that return cannot come before it. */
  lemma ScannedCoversAll<S, I, O>(m: Model<S, I, O>, h: seq<Entry<I, O>>, ops: seq<Operation<I, O>>, f: Frame<S>, x: nat) returns (j: nat)
    requires Encodes(h, ops) && LiveAt(h, f.config.done, f.live)
    requires f.idx < |f.live| && h[f.live[f.idx]].ReturnEntry?
    requires x < |ops| && x !in f.config.done && Minimal(ops, f.config.done, x)
    ensures j < f.idx && f.live[j] == ops[x].call
  {
    var p := ops[x].call;
    assert h[p].id == x;
    assert p in f.live;
    j :| 0 <= j < |f.live| && f.live[j] == p;
    var y := h[f.live[f.idx]].id;
    assert ops[y].ret == f.live[f.idx];
    assert !Precedes(ops, y, x);
    assert j != f.idx;
  }

  /** When every branch below a configuration is closed and the configuration itself is
      on record, it is closed. */
  lemma ExhaustedIsFinished<S, I, O>(m: Model<S, I, O>, h: seq<Entry<I, O>>, ops: seq<Operation<I, O>>, partial: bool, longest: Longest, f: Frame<S>)
    requires Encodes(h, ops) && LiveAt(h, f.config.done, f.live)
    requires Scanned(m, h, ops, partial, longest, f)
    requires f.idx < |f.live| && h[f.live[f.idx]].ReturnEntry?
    requires f.config.done <= Iota(|ops|)
    requires partial ==> Recorded(longest, f.config.done, [])
    ensures Finished(m, ops, partial, longest, f.config)
  {
    var c := f.config;
    forall tau | Extends(m, ops, c.done, c.state, tau)
      ensures |c.done| + |tau| < |ops| && (partial ==> Recorded(longest, c.done, tau))
    {
      if tau == [] {
        var y := h[f.live[f.idx]].id;
        SubsetCount(c.done, Iota(|ops|));
        assert y in Iota(|ops|) && y !in c.done;
      } else {
        BranchRecorded(m, h, ops, partial, longest, f, tau);
      }
    }
  }

  /** A path through a configuration all of whose branches are closed goes through one of
      them. */
  lemma BranchRecorded<S, I, O>(m: Model<S, I, O>, h: seq<Entry<I, O>>, ops: seq<Operation<I, O>>, partial: bool, longest: Longest, f: Frame<S>, tau: seq<nat>)
    requires Encodes(h, ops) && LiveAt(h, f.config.done, f.live)
    requires Scanned(m, h, ops, partial, longest, f)
    requires f.idx < |f.live| && h[f.live[f.idx]].ReturnEntry?
    requires tau != [] && Extends(m, ops, f.config.done, f.config.state, tau)
    ensures |f.config.done| + |tau| < |ops| && (partial ==> Recorded(longest, f.config.done, tau))
  {
    var c := f.config;
    var x := tau[0];
    var j := ScannedCoversAll(m, h, ops, f, x);
    assert h[f.live[j]].id == x;
    var c' := Child(m, ops, c, x);
    assert Finished(m, ops, partial, longest, c');
    assert Extends(m, ops, c'.done, c'.state, tau[1..]);
    hide Encodes, LiveAt, Scanned;
    if partial {
      assert Recorded(longest, c'.done, tau[1..]);
      forall y | y in c.done || y in tau
        ensures y < |longest| && longest[y].Some? && |longest[y].value| >= |c.done| + |tau|
      {
        assert y in c'.done || y in tau[1..];
      }
    }
  }

  lemma DoneWithin<S, I, O>(m: Model<S, I, O>, ops: seq<Operation<I, O>>, f: Frame<S>)
    requires Reached(m, ops, f)
    ensures f.config.done <= Iota(|ops|)
  {
    forall x | x in f.config.done ensures x in Iota(|ops|) {
      assert x in f.path;
    }
  }

  // ---------------------------------------------------------------------------
  // The moves.

  lemma Start<S, I, O>(m: Model<S, I, O>, h: seq<Entry<I, O>>, ops: seq<Operation<I, O>>, partial: bool, live: seq<nat>, longest: Longest)
    requires Encodes(h, ops)
    requires |live| == |h| && forall i :: 0 <= i < |live| ==> live[i] == i
    requires |longest| == |ops| && forall i :: 0 <= i < |longest| ==> longest[i].None?
    ensures Inv(m, h, ops, partial, [Frame([], Config({}, m.init), live, 0)], {}, longest)
  {
    forall p | 0 <= p < |h| ensures p in live { assert live[p] == p; }
  }

  /** The search with its cursor one entry further. */
  function Advanced<S>(frames: seq<Frame<S>>): seq<Frame<S>>
    requires |frames| > 0
  {
    frames[|frames| - 1 := Last(frames).(idx := Last(frames).idx + 1)]
  }

  /** Passing a call is sound when the model refuses it, or when a configuration the
      model cannot tell from its child is remembered: that one has as many operations
      placed as the level below, so it is not one the search stands in, so it is closed. */
  lemma Advance<S(!new), I(!new), O(!new)>(
    m: Model<S, I, O>, h: seq<Entry<I, O>>, ops: seq<Operation<I, O>>, partial: bool,
    frames: seq<Frame<S>>, memo: set<Config<S>>, longest: Longest)
    requires Congruent(m)
    requires Inv(m, h, ops, partial, frames, memo, longest)
    requires var f := Last(frames); f.idx < |f.live| && h[f.live[f.idx]].CallEntry?
    requires var f := Last(frames); var x := Chosen(h, f);
             StepAt(m, ops, f.config.state, x).0 ==>
               exists t :: Config(f.config.done + {x}, t) in memo && m.equal(StepAt(m, ops, f.config.state, x).1, t)
    ensures Inv(m, h, ops, partial, Advanced(frames), memo, longest)
  {
    var f := Last(frames);
    assert LiveAt(h, f.config.done, f.live);
    var x := Chosen(h, f);
    hide Finished, Scanned, Level, Descends, Congruent, RecordsValid;
    if StepAt(m, ops, f.config.state, x).0 {
      var t :| Config(f.config.done + {x}, t) in memo && m.equal(StepAt(m, ops, f.config.state, x).1, t);
      HitIsFinished(m, h, ops, partial, frames, memo, longest, t);
    }
    AdvanceLevels(m, h, ops, frames);
    AdvanceScanned(m, h, ops, partial, longest, frames);
    MemoKept(m, ops, partial, longest, longest, memo, frames, Advanced(frames));
  }

  /** A remembered configuration with the operations of the next level is closed. */
  lemma HitIsFinished<S(!new), I(!new), O(!new)>(
    m: Model<S, I, O>, h: seq<Entry<I, O>>, ops: seq<Operation<I, O>>, partial: bool,
    frames: seq<Frame<S>>, memo: set<Config<S>>, longest: Longest, t: S)
    requires Congruent(m)
    requires Levels(m, h, ops, frames) && MemoClosed(m, ops, partial, longest, memo, frames)
    requires var f := Last(frames); f.idx < |f.live| && h[f.live[f.idx]].CallEntry?
    requires var f := Last(frames); var x := Chosen(h, f);
             && Config(f.config.done + {x}, t) in memo
             && m.equal(StepAt(m, ops, f.config.state, x).1, t)
    ensures Finished(m, ops, partial, longest, Child(m, ops, Last(frames).config, Chosen(h, Last(frames))))
  {
    var f := Last(frames);
    var x := Chosen(h, f);
    var c := Config(f.config.done + {x}, t);
    assert |c.done| == |frames|;
    forall k | 0 <= k < |frames| ensures frames[k].config != c {
      assert Level(m, h, ops, frames[k]) && |frames[k].path| == k;
    }
    assert !StandsIn(frames, c);
    FinishedCongruent(m, ops, partial, longest, c.done, StepAt(m, ops, f.config.state, x).1, t);
  }

  lemma AdvanceLevels<S, I, O>(m: Model<S, I, O>, h: seq<Entry<I, O>>, ops: seq<Operation<I, O>>, frames: seq<Frame<S>>)
    requires Levels(m, h, ops, frames)
    ensures Levels(m, h, ops, Advanced(frames))
  {
    var frames' := Advanced(frames);
    forall k | 0 <= k < |frames'| ensures Level(m, h, ops, frames'[k]) && |frames'[k].path| == k {
      assert Level(m, h, ops, frames[k]);
    }
    forall k, l | 0 <= k < |frames'| && 0 <= l < |frames'| && l == k + 1 ensures Descends(m, h, ops, frames'[k], frames'[l]) {
      assert Descends(m, h, ops, frames[k], frames[l]);
    }
  }

  lemma AdvanceScanned<S, I, O>(m: Model<S, I, O>, h: seq<Entry<I, O>>, ops: seq<Operation<I, O>>, partial: bool, longest: Longest, frames: seq<Frame<S>>)
    requires Encodes(h, ops) && |frames| > 0 && AllScanned(m, h, ops, partial, longest, frames)
    requires var f := Last(frames);
             && f.idx < |f.live| && h[f.live[f.idx]].CallEntry?
             && (StepAt(m, ops, f.config.state, Chosen(h, f)).0 ==>
                   Finished(m, ops, partial, longest, Child(m, ops, f.config, Chosen(h, f))))
    ensures AllScanned(m, h, ops, partial, longest, Advanced(frames))
  {
    var n := |frames| - 1;
    ScanOne(m, h, ops, partial, longest, frames[n]);
    assert forall k :: 0 <= k < n ==> Advanced(frames)[k] == frames[k];
  }

  lemma ScanOne<S, I, O>(m: Model<S, I, O>, h: seq<Entry<I, O>>, ops: seq<Operation<I, O>>, partial: bool, longest: Longest, f: Frame<S>)
    requires Encodes(h, ops) && LiveAt(h, f.config.done, f.live) && Scanned(m, h, ops, partial, longest, f)
    requires && f.idx < |f.live| && h[f.live[f.idx]].CallEntry?
             && (StepAt(m, ops, f.config.state, Chosen(h, f)).0 ==>
                   Finished(m, ops, partial, longest, Child(m, ops, f.config, Chosen(h, f))))
    ensures Scanned(m, h, ops, partial, longest, f.(idx := f.idx + 1))
  {
  }

  /** What is remembered stays closed or stood in. */
  lemma MemoKept<S, I, O>(m: Model<S, I, O>, ops: seq<Operation<I, O>>, partial: bool, before: Longest, after: Longest,
                          memo: set<Config<S>>, frames: seq<Frame<S>>, frames': seq<Frame<S>>)
    requires MemoClosed(m, ops, partial, before, memo, frames)
    requires Grows(before, after)
    requires forall k :: 0 <= k < |frames| ==>
               (k < |frames'| && frames'[k].config == frames[k].config) || Finished(m, ops, partial, after, frames[k].config)
    ensures MemoClosed(m, ops, partial, after, memo, frames')
  {
    forall c | c in memo ensures Finished(m, ops, partial, after, c) || StandsIn(frames', c) {
      if Finished(m, ops, partial, before, c) {
        FinishedGrows(m, ops, partial, before, after, c);
      } else {
        var k :| 0 <= k < |frames| && frames[k].config == c;
      }
    }
  }

  /** Placing the call under the cursor. */
  lemma Push<S, I, O>(m: Model<S, I, O>, h: seq<Entry<I, O>>, ops: seq<Operation<I, O>>, partial: bool,
                      frames: seq<Frame<S>>, memo: set<Config<S>>, longest: Longest, j: nat)
    requires Inv(m, h, ops, partial, frames, memo, longest)
    requires var f := Last(frames);
             && f.idx < |f.live| && h[f.live[f.idx]].CallEntry?
             && StepAt(m, ops, f.config.state, Chosen(h, f)).0
             && f.idx < j < |f.live| && f.live[j] == ops[Chosen(h, f)].ret
    ensures var f := Last(frames); var c := Child(m, ops, f.config, Chosen(h, f));
            Inv(m, h, ops, partial, frames + [Frame(f.path + [Chosen(h, f)], c, Unlist(f.live, f.idx, j), 0)], memo + {c}, longest)
  {
    var f := Last(frames);
    var x := Chosen(h, f);
    var c := Child(m, ops, f.config, x);
    var g := Frame(f.path + [x], c, Unlist(f.live, f.idx, j), 0);
    var frames' := frames + [g];
    PushIsLevel(m, h, ops, f, j);
    MemoKept(m, ops, partial, longest, longest, memo, frames, frames');
    assert frames'[|frames|].config == c;
    PushLevels(m, h, ops, frames, g);
  }

  lemma PushLevels<S, I, O>(m: Model<S, I, O>, h: seq<Entry<I, O>>, ops: seq<Operation<I, O>>, frames: seq<Frame<S>>, g: Frame<S>)
    requires Levels(m, h, ops, frames)
    requires Level(m, h, ops, g) && |g.path| == |frames|
    requires Descends(m, h, ops, Last(frames), g)
    ensures Levels(m, h, ops, frames + [g])
  {
    hide Level, Descends, Encodes;
    var frames' := frames + [g];
    var n := |frames|;
    forall k | 0 <= k < |frames'| ensures Level(m, h, ops, frames'[k]) && |frames'[k].path| == k {
      if k < n { assert frames'[k] == frames[k]; }
    }
    forall k, l | 0 <= k < |frames'| && 0 <= l < |frames'| && l == k + 1 ensures Descends(m, h, ops, frames'[k], frames'[l]) {
      if l < n { assert frames'[k] == frames[k] && frames'[l] == frames[l]; }
    }
  }

  lemma PushIsLevel<S, I, O>(m: Model<S, I, O>, h: seq<Entry<I, O>>, ops: seq<Operation<I, O>>, f: Frame<S>, j: nat)
    requires Encodes(h, ops) && Level(m, h, ops, f)
    requires f.idx < j < |f.live| && h[f.live[f.idx]].CallEntry?
    requires StepAt(m, ops, f.config.state, Chosen(h, f)).0
    requires f.live[j] == ops[Chosen(h, f)].ret
    requires forall k :: 0 <= k < f.idx ==> h[f.live[k]].CallEntry?
    ensures Level(m, h, ops, Frame(f.path + [Chosen(h, f)], Child(m, ops, f.config, Chosen(h, f)), Unlist(f.live, f.idx, j), 0))
  {
    var x := Chosen(h, f);
    UnlistIsLive(h, ops, f.config.done, f.live, f.idx, j);
    PlacedIsMinimal(m, h, ops, f);
    assert {} + Elements(f.path) == f.config.done;
    ExtendsSnoc(m, ops, {}, m.init, f.path, x);
    assert Elements(f.path + [x]) == f.config.done + {x};
  }

  /** With only calls ahead of it, the call under the cursor may come next. */
  lemma PlacedIsMinimal<S, I, O>(m: Model<S, I, O>, h: seq<Entry<I, O>>, ops: seq<Operation<I, O>>, f: Frame<S>)
    requires Encodes(h, ops) && LiveAt(h, f.config.done, f.live)
    requires f.idx < |f.live| && h[f.live[f.idx]].CallEntry?
    requires forall k :: 0 <= k < f.idx ==> h[f.live[k]].CallEntry?
    ensures Minimal(ops, f.config.done, Chosen(h, f))
  {
    var x := Chosen(h, f);
    forall y | 0 <= y < |ops| && y !in f.config.done ensures !Precedes(ops, y, x) {
      var q := ops[y].ret;
      assert h[q].id == y;
      assert q in f.live;
      var k :| 0 <= k < |f.live| && f.live[k] == q;
      assert h[f.live[k]].ReturnEntry?;
      assert f.idx < k;
    }
  }

  /** The records after the path ids has been entered for each of its operations that
      had none, or a shorter one. */
  function Record(longest: Longest, ids: seq<nat>): (r: Longest)
    ensures |r| == |longest|
    ensures forall x :: 0 <= x < |longest| ==>
      r[x] == if x in ids && (longest[x].None? || |ids| > |longest[x].value|) then Some(ids) else longest[x]
  {
    seq(|longest|, x requires 0 <= x < |longest| =>
      if x in ids && (longest[x].None? || |ids| > |longest[x].value|) then Some(ids) else longest[x])
  }

  lemma RecordKeeps<S, I, O>(m: Model<S, I, O>, ops: seq<Operation<I, O>>, longest: Longest, ids: seq<nat>)
    requires RecordsValid(m, ops, longest)
    requires Extends(m, ops, {}, m.init, ids)
    ensures RecordsValid(m, ops, Record(longest, ids))
    ensures Grows(longest, Record(longest, ids))
    ensures Recorded(Record(longest, ids), Elements(ids), [])
  {
    ExtendsIffPartial(m, ops, ids);
    DistinctCover(ids, |ops|);
    forall x | x in Elements(ids)
      ensures x < |longest| && Record(longest, ids)[x].Some? && |Record(longest, ids)[x].value| >= |Elements(ids)|
    {
      assert x in ids;
    }
  }

  /** Backing out of a level whose cursor met a return, and stepping past the call that
      led into it. */
  lemma Pop<S, I, O>(m: Model<S, I, O>, h: seq<Entry<I, O>>, ops: seq<Operation<I, O>>, partial: bool,
                     frames: seq<Frame<S>>, memo: set<Config<S>>, longest: Longest, longest': Longest)
    requires Inv(m, h, ops, partial, frames, memo, longest)
    requires |frames| > 1
    requires var f := Last(frames); f.idx < |f.live| && h[f.live[f.idx]].ReturnEntry?
    requires longest' == if partial then Record(longest, Last(frames).path) else longest
    ensures Inv(m, h, ops, partial, Advanced(frames[..|frames|-1]), memo, longest')
    ensures Grows(longest, longest')
  {
    RecordKeeps(m, ops, longest, Last(frames).path);
    PopRecorded(m, h, ops, partial, frames, memo, longest, longest');
  }

  lemma PopRecorded<S, I, O>(m: Model<S, I, O>, h: seq<Entry<I, O>>, ops: seq<Operation<I, O>>, partial: bool,
                             frames: seq<Frame<S>>, memo: set<Config<S>>, longest: Longest, longest': Longest)
    requires Inv(m, h, ops, partial, frames, memo, longest)
    requires |frames| > 1
    requires var f := Last(frames); f.idx < |f.live| && h[f.live[f.idx]].ReturnEntry?
    requires RecordsValid(m, ops, longest') && Grows(longest, longest')
    requires partial ==> Recorded(longest', Last(frames).config.done, [])
    ensures Inv(m, h, ops, partial, Advanced(frames[..|frames|-1]), memo, longest')
  {
    var f := Last(frames);
    AllScannedGrows(m, h, ops, partial, longest, longest', frames);
    DoneWithin(m, ops, f);
    ExhaustedIsFinished(m, h, ops, partial, longest', f);
    PopLevels(m, h, ops, frames);
    PopScanned(m, h, ops, partial, longest', frames);
    PopMemo(m, ops, partial, longest, longest', memo, frames);
  }

  lemma PopLevels<S, I, O>(m: Model<S, I, O>, h: seq<Entry<I, O>>, ops: seq<Operation<I, O>>, frames: seq<Frame<S>>)
    requires Levels(m, h, ops, frames) && |frames| > 1
    ensures Levels(m, h, ops, Advanced(frames[..|frames| - 1]))
  {
    AdvanceLevels(m, h, ops, frames[..|frames| - 1]);
  }

  lemma PopMemo<S, I, O>(m: Model<S, I, O>, ops: seq<Operation<I, O>>, partial: bool, before: Longest, after: Longest,
                         memo: set<Config<S>>, frames: seq<Frame<S>>)
    requires |frames| > 1
    requires MemoClosed(m, ops, partial, before, memo, frames)
    requires Grows(before, after)
    requires Finished(m, ops, partial, after, Last(frames).config)
    ensures MemoClosed(m, ops, partial, after, memo, Advanced(frames[..|frames| - 1]))
  {
    MemoKept(m, ops, partial, before, after, memo, frames, Advanced(frames[..|frames| - 1]));
  }

  lemma PopScanned<S, I, O>(m: Model<S, I, O>, h: seq<Entry<I, O>>, ops: seq<Operation<I, O>>, partial: bool, longest: Longest, frames: seq<Frame<S>>)
    requires Levels(m, h, ops, frames) && |frames| > 1
    requires AllScanned(m, h, ops, partial, longest, frames)
    requires Finished(m, ops, partial, longest, Last(frames).config)
    ensures AllScanned(m, h, ops, partial, longest, Advanced(frames[..|frames| - 1]))
  {
    var n := |frames| - 1;
    assert Descends(m, h, ops, frames[n-1], frames[n]);
    AdvanceScanned(m, h, ops, partial, longest, frames[..n]);
  }

  lemma AllScannedGrows<S, I, O>(m: Model<S, I, O>, h: seq<Entry<I, O>>, ops: seq<Operation<I, O>>, partial: bool, before: Longest, after: Longest, frames: seq<Frame<S>>)
    requires Encodes(h, ops)
    requires AllScanned(m, h, ops, partial, before, frames)
    requires Grows(before, after)
    ensures AllScanned(m, h, ops, partial, after, frames)
  {
    forall k | 0 <= k < |frames| ensures Scanned(m, h, ops, partial, after, frames[k]) {
      ScannedGrows(m, h, ops, partial, before, after, frames[k]);
    }
  }

  lemma ScannedGrows<S, I, O>(m: Model<S, I, O>, h: seq<Entry<I, O>>, ops: seq<Operation<I, O>>, partial: bool, before: Longest, after: Longest, f: Frame<S>)
    requires Encodes(h, ops) && LiveAt(h, f.config.done, f.live)
    requires Scanned(m, h, ops, partial, before, f)
    requires Grows(before, after)
    ensures Scanned(m, h, ops, partial, after, f)
  {
    forall j | 0 <= j < f.idx && StepAt(m, ops, f.config.state, h[f.live[j]].id).0
      ensures Finished(m, ops, partial, after, Child(m, ops, f.config, h[f.live[j]].id))
    {
      FinishedGrows(m, ops, partial, before, after, Child(m, ops, f.config, h[f.live[j]].id));
    }
  }

  // ---------------------------------------------------------------------------
  // The two ways to stop.

  lemma Exhausted<S, I, O>(m: Model<S, I, O>, h: seq<Entry<I, O>>, ops: seq<Operation<I, O>>, partial: bool,
                           frames: seq<Frame<S>>, memo: set<Config<S>>, longest: Longest)
    requires Inv(m, h, ops, partial, frames, memo, longest)
    requires |frames| == 1
    requires var f := Last(frames); f.idx < |f.live| && h[f.live[f.idx]].ReturnEntry?
    ensures !Linearizable(m, ops)
    ensures partial ==> Maximal(m, ops, longest)
  {
    DoneWithin(m, ops, frames[0]);
    ExhaustedIsFinished(m, h, ops, partial, longest, frames[0]);
    var c := Config({}, m.init);
    assert frames[0].path == [] && frames[0].config == c;
    assert Finished(m, ops, partial, longest, c);
    forall order ensures !Linearization(m, ops, order) {
      CompleteIffPartial(m, ops, order);
      ExtendsIffPartial(m, ops, order);
    }
    if partial {
      forall order, x | PartialLinearization(m, ops, order) && x in order
        ensures x < |longest| && longest[x].Some? && |longest[x].value| >= |order|
      {
        ExtendsIffPartial(m, ops, order);
        assert Recorded(longest, {}, order);
      }
    }
  }

  /** Each record is a longest partial linearization through its operation; an operation
      with no record is in none. */
  ghost predicate Maximal<S, I, O>(m: Model<S, I, O>, ops: seq<Operation<I, O>>, longest: Longest) {
    && RecordsValid(m, ops, longest)
    && forall order, x :: PartialLinearization(m, ops, order) && x in order ==>
         x < |longest| && longest[x].Some? && |longest[x].value| >= |order|
  }

  lemma Completed<S, I, O>(m: Model<S, I, O>, h: seq<Entry<I, O>>, ops: seq<Operation<I, O>>, partial: bool,
                           frames: seq<Frame<S>>, memo: set<Config<S>>, longest: Longest)
    requires Inv(m, h, ops, partial, frames, memo, longest)
    requires Last(frames).live == []
    ensures Linearization(m, ops, Last(frames).path)
  {
    var f := Last(frames);
    var ids := f.path;
    ExtendsIffPartial(m, ops, ids);
    DistinctCover(ids, |ops|);
    forall x | x in Iota(|ops|) ensures x in Elements(ids) {
      assert h[ops[x].call].id == x;
    }
    SubsetCount(Iota(|ops|), Elements(ids));
    CompleteIffPartial(m, ops, ids);
  }

  // ---------------------------------------------------------------------------
  // Termination: there are finitely many configurations to remember.

  /** The configurations at most k operations away from the start. */
  ghost function Near<S, I, O>(m: Model<S, I, O>, ops: seq<Operation<I, O>>, k: nat): set<Config<S>> {
    if k == 0 then {Config({}, m.init)}
    else
      var near := Near(m, ops, k - 1);
      near + set c, x | c in near && x in Iota(|ops|) :: Child(m, ops, c, x)
  }

  ghost function Universe<S, I, O>(m: Model<S, I, O>, ops: seq<Operation<I, O>>): set<Config<S>> {
    Near(m, ops, |ops|)
  }

  lemma {:induction false} LevelNear<S, I, O>(m: Model<S, I, O>, h: seq<Entry<I, O>>, ops: seq<Operation<I, O>>, frames: seq<Frame<S>>, k: nat)
    requires Levels(m, h, ops, frames) && k < |frames|
    ensures frames[k].config in Near(m, ops, k)
  {
    assert Level(m, h, ops, frames[k]) && |frames[k].path| == k;
    if k == 0 {
      assert frames[k].path == [];
    } else {
      LevelNear(m, h, ops, frames, k - 1);
      assert Descends(m, h, ops, frames[k-1], frames[k]);
      assert Chosen(h, frames[k-1]) in Iota(|ops|);
    }
  }

  lemma {:induction false} NearGrows<S, I, O>(m: Model<S, I, O>, ops: seq<Operation<I, O>>, j: nat, k: nat)
    requires j <= k
    ensures Near(m, ops, j) <= Near(m, ops, k)
  {
    if j < k { NearGrows(m, ops, j, k - 1); }
  }

  /** The child the search is about to remember is one of finitely many. */
  lemma ChildInUniverse<S, I, O>(m: Model<S, I, O>, h: seq<Entry<I, O>>, ops: seq<Operation<I, O>>, frames: seq<Frame<S>>)
    requires Levels(m, h, ops, frames)
    requires var f := Last(frames); f.idx < |f.live| && h[f.live[f.idx]].CallEntry?
    ensures var f := Last(frames); Child(m, ops, f.config, Chosen(h, f)) in Universe(m, ops)
  {
    var f := Last(frames);
    var k := |frames| - 1;
    var x := Chosen(h, f);
    LevelNear(m, h, ops, frames, k);
    DoneWithin(m, ops, f);
    SubsetCount(f.config.done, Iota(|ops|));
    assert x in Iota(|ops|) && x !in f.config.done;
    assert k < |ops|;
    assert Child(m, ops, f.config, x) in Near(m, ops, k + 1);
    NearGrows(m, ops, k + 1, |ops|);
  }
}
