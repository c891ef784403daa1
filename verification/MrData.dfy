/** MapReduce's data path: spreading, sorting, grouping and reducing, next to the sequential
    program it must agree with. */
module MrData {
  import opened Sorting
  import Kv

  datatype KeyValue = KeyValue(key: string, value: string)

  type MapFunc = (string, string) -> seq<KeyValue>

  type ReduceFunc = (string, seq<string>) -> string

  /** An input file: its name and what is in it. */
  datatype Input = Input(name: string, content: string)

  /** The values of a key, in the order of the items. */
  function Values(items: seq<KeyValue>, key: string): seq<string> {
    if items == [] then []
    else
      var n := |items| - 1;
      Values(items[..n], key) + if items[n].key == key then [items[n].value] else []
  }

  function KeysOf(items: seq<KeyValue>): set<string> {
    set i | 0 <= i < |items| :: items[i].key
  }

  ghost predicate DistinctKeys(out: seq<KeyValue>) {
    forall i, j :: 0 <= i < j < |out| ==> out[i].key != out[j].key
  }

  /** One line for each of the keys, with what reducef makes of the key's values in items. */
  ghost predicate OutputFor(items: seq<KeyValue>, keys: set<string>, reducef: ReduceFunc, out: seq<KeyValue>) {
    && DistinctKeys(out) && KeysOf(out) == keys
    && forall i :: 0 <= i < |out| ==> out[i].value == reducef(out[i].key, Values(items, out[i].key))
  }

  /** The lines for everything in the items, arranged in some order. */
  ghost predicate OutputOf(items: seq<KeyValue>, reducef: ReduceFunc, out: seq<KeyValue>) {
    exists sorted :: multiset(sorted) == multiset(items) && OutputFor(sorted, KeysOf(sorted), reducef, out)
  }

  /** The order of a key's values makes no difference to reducef. */
  ghost predicate Insensitive(reducef: ReduceFunc) {
    forall key, a, b :: multiset(a) == multiset(b) ==> reducef(key, a) == reducef(key, b)
  }

  predicate KeyLeq(a: KeyValue, b: KeyValue) { Kv.LexLeq(a.key, b.key) }

  // ---- grouping

  lemma {:induction false} LexAntisymmetric(a: string, b: string)
    requires Kv.LexLeq(a, b) && Kv.LexLeq(b, a)
    ensures a == b
  {
    if a != [] && b != [] && a[0] == b[0] {
      LexAntisymmetric(a[1..], b[1..]);
      assert a == [a[0]] + a[1..] && b == [b[0]] + b[1..];
    }
  }

  lemma KeyIsPreorder()
    ensures TotalPreorder(KeyLeq)
  {
    Kv.LexIsPreorder();
  }

  /** The values are those of the items with the key, each as often and in the order they come. */
  ghost predicate ValuesAt(items: seq<KeyValue>, key: string, values: seq<string>, places: seq<nat>) {
    && |places| == |values|
    && (forall i :: 0 <= i < |places| ==> places[i] < |items| && items[places[i]] == KeyValue(key, values[i]))
    && (forall i, j :: 0 <= i < j < |places| ==> places[i] < places[j])
    && forall x: nat :: x < |items| && items[x].key == key ==> x in places
  }

  lemma {:induction false} ValuesExact(items: seq<KeyValue>, key: string) returns (places: seq<nat>)
    ensures ValuesAt(items, key, Values(items, key), places)
  {
    hide ValuesAt, Values;
    if items == [] {
      places := [];
      ValuesNothing(key);
    } else {
      var n := |items| - 1;
      places := ValuesExact(items[..n], key);
      ValuesNext(items, key, places);
      if items[n].key == key {
        places := places + [n];
      }
    }
  }

  lemma ValuesNothing(key: string)
    ensures ValuesAt([], key, Values([], key), [])
  {
  }

  lemma ValuesNext(items: seq<KeyValue>, key: string, places: seq<nat>)
    requires items != [] && ValuesAt(items[..|items| - 1], key, Values(items[..|items| - 1], key), places)
    ensures var n := |items| - 1;
      ValuesAt(items, key, Values(items, key), if items[n].key == key then places + [n] else places)
  {
    hide ValuesAt;
    var n := |items| - 1;
    var front := Values(items[..n], key);
    assert Values(items, key) == if items[n].key == key then front + [items[n].value] else front;
    ValuesSnoc(items, key, front, places);
  }

  lemma ValuesSnoc(items: seq<KeyValue>, key: string, values: seq<string>, places: seq<nat>)
    requires items != [] && ValuesAt(items[..|items| - 1], key, values, places)
    ensures var n := |items| - 1;
      if items[n].key == key then ValuesAt(items, key, values + [items[n].value], places + [n])
      else ValuesAt(items, key, values, places)
  {
    var n := |items| - 1;
    forall x: nat | x < n && items[x].key == key ensures x in places { assert items[..n][x] == items[x]; }
  }

  /** Equal keys stand side by side. */
  ghost predicate Runs(items: seq<KeyValue>) {
    forall i, j, k :: 0 <= i <= j <= k < |items| && items[i].key == items[k].key ==> items[j].key == items[i].key
  }

  lemma Pinned(items: seq<KeyValue>, i: nat, j: nat, k: nat)
    requires InOrder(KeyLeq, items) && i < j < k < |items| && items[i].key == items[k].key
    ensures items[j].key == items[i].key
  {
    hide InOrder, Kv.LexLeq;
    OrderedPair(KeyLeq, items, i, j);
    OrderedPair(KeyLeq, items, j, k);
    LexAntisymmetric(items[i].key, items[j].key);
  }

  lemma SortedRuns(items: seq<KeyValue>)
    requires InOrder(KeyLeq, items)
    ensures Runs(items)
  {
    hide InOrder;
    forall i, j, k | 0 <= i <= j <= k < |items| && items[i].key == items[k].key ensures items[j].key == items[i].key {
      if i < j < k {
        Pinned(items, i, j, k);
      }
    }
  }

  lemma {:induction false} NoValues(items: seq<KeyValue>, key: string)
    requires key !in KeysOf(items)
    ensures Values(items, key) == []
  {
    if items != [] {
      var n := |items| - 1;
      assert items[n].key in KeysOf(items);
      assert KeysOf(items[..n]) <= KeysOf(items) by { KeysPrefix(items, n); }
      NoValues(items[..n], key);
    }
  }

  lemma KeysPrefix(items: seq<KeyValue>, n: nat)
    requires n <= |items|
    ensures KeysOf(items[..n]) <= KeysOf(items)
  {
    forall k | k in KeysOf(items[..n]) ensures k in KeysOf(items) {
      var i :| 0 <= i < n && items[..n][i].key == k;
      assert items[i].key == k;
    }
  }

  lemma {:induction false} ValuesConcat(a: seq<KeyValue>, b: seq<KeyValue>, key: string)
    ensures Values(a + b, key) == Values(a, key) + Values(b, key)
  {
    if b == [] {
      assert a + b == a;
    } else {
      var n := |b| - 1;
      assert (a + b)[..|a| + n] == a + b[..n];
      ValuesConcat(a, b[..n], key);
    }
  }

  lemma KeysConcat(a: seq<KeyValue>, b: seq<KeyValue>)
    ensures KeysOf(a + b) == KeysOf(a) + KeysOf(b)
  {
    forall k | k in KeysOf(a) + KeysOf(b) ensures k in KeysOf(a + b) {
      if k in KeysOf(a) {
        var i :| 0 <= i < |a| && a[i].key == k;
        assert (a + b)[i].key == k;
      } else {
        var i :| 0 <= i < |b| && b[i].key == k;
        assert (a + b)[|a| + i].key == k;
      }
    }
    forall k | k in KeysOf(a + b) ensures k in KeysOf(a) + KeysOf(b) {
      var i :| 0 <= i < |a + b| && (a + b)[i].key == k;
      if i < |a| { assert a[i].key == k; } else { assert b[i - |a|].key == k; }
    }
  }

  /** The values of a stretch of items with the same key. */
  function Column(items: seq<KeyValue>): seq<string> {
    seq(|items|, i requires 0 <= i < |items| => items[i].value)
  }

  lemma {:induction false} RunValues(run: seq<KeyValue>, key: string)
    requires forall i :: 0 <= i < |run| ==> run[i].key == key
    ensures Values(run, key) == Column(run)
  {
    if run != [] {
      RunValues(run[..|run| - 1], key);
    }
  }

  lemma Between(items: seq<KeyValue>, i: nat, j: nat, k: nat)
    requires Runs(items) && i <= j <= k < |items|
    ensures items[i].key == items[k].key ==> items[j].key == items[i].key
  {
  }

  /** A stretch of one key. */
  ghost predicate OneKey(items: seq<KeyValue>, i: nat, j: nat) {
    i < j <= |items| && forall k :: i <= k < j ==> items[k].key == items[i].key
  }

  lemma OneKeyValues(items: seq<KeyValue>, i: nat, j: nat)
    requires OneKey(items, i, j)
    ensures Values(items[i..j], items[i].key) == Column(items[i..j]) && KeysOf(items[i..j]) == {items[i].key}
  {
    hide Values, Column;
    var run := items[i..j];
    assert run[0] == items[i];
    forall k | 0 <= k < |run| ensures run[k].key == items[i].key { assert run[k] == items[i + k]; }
    RunValues(run, items[i].key);
  }

  lemma NotBefore(items: seq<KeyValue>, i: nat)
    requires Runs(items) && i < |items| && (i > 0 ==> items[i - 1].key != items[i].key)
    ensures items[i].key !in KeysOf(items[..i])
  {
    forall k | 0 <= k < i ensures items[..i][k].key != items[i].key {
      Between(items, k, i - 1, i);
    }
  }

  lemma NotAfter(items: seq<KeyValue>, i: nat, j: nat)
    requires Runs(items) && i < j <= |items| && (j < |items| ==> items[j].key != items[i].key)
    ensures items[i].key !in KeysOf(items[j..])
  {
    forall k | 0 <= k < |items| - j ensures items[j..][k].key != items[i].key {
      Between(items, i, j, j + k);
    }
  }

  /** A run of equal keys, set against what stands before it and after it. */
  lemma RunIsAll(items: seq<KeyValue>, i: nat, j: nat)
    requires Runs(items) && i < j <= |items| && OneKey(items, i, j)
    requires i > 0 ==> items[i - 1].key != items[i].key
    requires j < |items| ==> items[j].key != items[i].key
    ensures Values(items, items[i].key) == Column(items[i..j]) && items[i].key !in KeysOf(items[..i])
  {
    hide Runs, KeysOf, Values, Column, OneKey;
    NotBefore(items, i);
    NotAfter(items, i, j);
    Amid(items[..i], items[i..j], items[j..], items[i].key);
    OneKeyValues(items, i, j);
    assert items == items[..i] + items[i..j] + items[j..];
  }

  lemma Amid(a: seq<KeyValue>, b: seq<KeyValue>, c: seq<KeyValue>, key: string)
    requires key !in KeysOf(a) && key !in KeysOf(c)
    ensures Values(a + b + c, key) == Values(b, key)
  {
    hide KeysOf, Values;
    ValuesConcat(a + b, c, key);
    ValuesConcat(a, b, key);
    NoValues(a, key);
    NoValues(c, key);
  }

  lemma Nothing(items: seq<KeyValue>, reducef: ReduceFunc)
    ensures OutputFor(items, KeysOf([]), reducef, [])
  {
  }

  /** The lines stand in the order of their keys. */
  ghost predicate Ascending(out: seq<KeyValue>) {
    forall i, j :: 0 <= i < j < |out| ==> Kv.LexLeq(out[i].key, out[j].key)
  }

  lemma BelowNext(out: seq<KeyValue>, a: string, b: string)
    requires Kv.LexLeq(a, b) && forall k :: 0 <= k < |out| ==> Kv.LexLeq(out[k].key, a)
    ensures forall k :: 0 <= k < |out| ==> Kv.LexLeq(out[k].key, b)
  {
    hide Kv.LexLeq;
    forall k | 0 <= k < |out| ensures Kv.LexLeq(out[k].key, b) { Kv.LexTransitive(out[k].key, a, b); }
  }

  /** Turns sorted items into one line for each key, in the order of the keys. */
  method Group(items: seq<KeyValue>, reducef: ReduceFunc) returns (out: seq<KeyValue>)
    requires InOrder(KeyLeq, items)
    ensures OutputFor(items, KeysOf(items), reducef, out) && Ascending(out)
  {
    hide InOrder, Runs, OutputFor, KeysOf, Values, Kv.LexLeq;
    SortedRuns(items);
    Nothing(items, reducef);
    out := [];
    var i := 0;
    assert items[..0] == [];
    while i < |items|
      invariant 0 <= i <= |items| && (0 < i < |items| ==> items[i - 1].key != items[i].key)
      invariant OutputFor(items, KeysOf(items[..i]), reducef, out)
      invariant Ascending(out) && (i < |items| ==> forall k :: 0 <= k < |out| ==> Kv.LexLeq(out[k].key, items[i].key))
    {
      var j := i + 1;
      while j < |items| && items[j].key == items[i].key
        invariant i < j <= |items| && forall k :: i <= k < j ==> items[k].key == items[i].key
      {
        j := j + 1;
      }
      var values := [];
      for k := i to j
        invariant values == Column(items[i..k])
      {
        values := values + [items[k].value];
      }
      RunIsAll(items, i, j);
      var line := KeyValue(items[i].key, reducef(items[i].key, values));
      AddLine(items, i, j, reducef, out, line);
      out := out + [line];
      if j < |items| {
        OrderedPair(KeyLeq, items, i, j);
        BelowNext(out[..|out| - 1], items[i].key, items[j].key);
      }
      i := j;
    }
    assert items[..i] == items;
  }

  lemma AddLine(items: seq<KeyValue>, i: nat, j: nat, reducef: ReduceFunc, out: seq<KeyValue>, line: KeyValue)
    requires i < j <= |items| && OneKey(items, i, j)
    requires OutputFor(items, KeysOf(items[..i]), reducef, out) && line.key == items[i].key && line.key !in KeysOf(items[..i])
    requires line.value == reducef(line.key, Values(items, line.key))
    ensures OutputFor(items, KeysOf(items[..j]), reducef, out + [line])
  {
    hide OutputFor, KeysOf, Values, OneKey;
    assert items[..j] == items[..i] + items[i..j];
    KeysConcat(items[..i], items[i..j]);
    OneKeyValues(items, i, j);
    LineAdded(items, KeysOf(items[..i]), reducef, out, line);
  }

  lemma LineAdded(items: seq<KeyValue>, keys: set<string>, reducef: ReduceFunc, out: seq<KeyValue>, line: KeyValue)
    requires OutputFor(items, keys, reducef, out) && line.key !in keys
    requires line.value == reducef(line.key, Values(items, line.key))
    ensures OutputFor(items, keys + {line.key}, reducef, out + [line])
  {
    KeysConcat(out, [line]);
    assert KeysOf([line]) == {line.key} by { assert [line][0] == line; }
    forall k | 0 <= k < |out| ensures out[k].key != line.key { assert out[k].key in KeysOf(out); }
  }

  // ---- spreading over buckets

  /** ihash(key) % nReduce, for any hash. */
  function BucketOf(hash: string -> nat, n: nat, key: string): (b: nat)
    requires n > 0
    ensures b < n
  {
    hash(key) % n
  }

  /** The items of one bucket, in order. */
  function Bucket(items: seq<KeyValue>, hash: string -> nat, n: nat, b: nat): seq<KeyValue>
    requires n > 0
  {
    if items == [] then []
    else
      var m := |items| - 1;
      Bucket(items[..m], hash, n, b) + if BucketOf(hash, n, items[m].key) == b then [items[m]] else []
  }

  /** The hash leaves remainder b when divided by n. */
  ghost predicate Leaves(h: nat, n: nat, b: nat) {
    exists q: nat :: h == q * n + b
  }

  lemma BucketLeaves(hash: string -> nat, n: nat, key: string, b: nat)
    requires 0 <= b < n
    ensures BucketOf(hash, n, key) == b <==> Leaves(hash(key), n, b)
  {
    var h := hash(key);
    assert h == (h / n) * n + h % n;
    if q: nat :| h == q * n + b {
      OneRemainder(h / n - q, n, h % n, b);
    }
  }

  lemma OneRemainder(k: int, n: nat, r: nat, b: nat)
    requires k * n + r == b && r < n && b < n
    ensures r == b
  {
    var m: int := n;
    assert -m < k * m < m;
    NoMultiple(k, m);
  }

  lemma NoMultiple(k: int, n: int)
    requires -n < k * n < n
    ensures k == 0
  {
  }

  /** The bucket's items are the items whose hash leaves the bucket's number, each as often and in
      the order in which they come: places says where they stand. */
  ghost predicate Sifted(items: seq<KeyValue>, hash: string -> nat, n: nat, b: nat, bucket: seq<KeyValue>, places: seq<nat>) {
    && |places| == |bucket|
    && (forall i :: 0 <= i < |places| ==> places[i] < |items| && bucket[i] == items[places[i]] && Leaves(hash(bucket[i].key), n, b))
    && (forall i, j :: 0 <= i < j < |places| ==> places[i] < places[j])
    && forall x: nat :: x < |items| && Leaves(hash(items[x].key), n, b) ==> x in places
  }

  ghost predicate HoldsBucket(items: seq<KeyValue>, hash: string -> nat, n: nat, b: nat, bucket: seq<KeyValue>) {
    exists places :: Sifted(items, hash, n, b, bucket, places)
  }

  lemma {:induction false} BucketIsSifted(items: seq<KeyValue>, hash: string -> nat, n: nat, b: nat) returns (places: seq<nat>)
    requires 0 <= b < n
    ensures Sifted(items, hash, n, b, Bucket(items, hash, n, b), places)
  {
    hide Sifted, Leaves, BucketOf, Bucket;
    if items == [] {
      places := [];
      SiftedNothing(hash, n, b);
    } else {
      var m := |items| - 1;
      places := BucketIsSifted(items[..m], hash, n, b);
      BucketLeaves(hash, n, items[m].key, b);
      SiftedNext(items, hash, n, b, Bucket(items[..m], hash, n, b), places);
      BucketLast(items, hash, n, b);
      if BucketOf(hash, n, items[m].key) == b {
        places := places + [m];
      }
    }
  }

  lemma SiftedNothing(hash: string -> nat, n: nat, b: nat)
    requires n > 0
    ensures Sifted([], hash, n, b, Bucket([], hash, n, b), [])
  {
  }

  lemma BucketLast(items: seq<KeyValue>, hash: string -> nat, n: nat, b: nat)
    requires n > 0 && items != []
    ensures var m := |items| - 1;
      Bucket(items, hash, n, b)
      == if BucketOf(hash, n, items[m].key) == b then Bucket(items[..m], hash, n, b) + [items[m]] else Bucket(items[..m], hash, n, b)
  {
  }

  lemma SiftedNext(items: seq<KeyValue>, hash: string -> nat, n: nat, b: nat, bucket: seq<KeyValue>, places: seq<nat>)
    requires items != [] && Sifted(items[..|items| - 1], hash, n, b, bucket, places)
    ensures var m := |items| - 1;
      if Leaves(hash(items[m].key), n, b) then Sifted(items, hash, n, b, bucket + [items[m]], places + [m])
      else Sifted(items, hash, n, b, bucket, places)
  {
    hide Leaves;
    var m := |items| - 1;
    forall x: nat | x < m && Leaves(hash(items[x].key), n, b) ensures x in places { assert items[..m][x] == items[x]; }
  }

  /** Sends every item to its bucket. */
  method Spread(items: seq<KeyValue>, hash: string -> nat, n: nat) returns (buckets: seq<seq<KeyValue>>)
    requires n > 0
    ensures |buckets| == n && forall b :: 0 <= b < n ==> buckets[b] == Bucket(items, hash, n, b)
    ensures forall b :: 0 <= b < n ==> HoldsBucket(items, hash, n, b, buckets[b])
  {
    buckets := seq(n, _ => []);
    for i := 0 to |items|
      invariant |buckets| == n && forall b :: 0 <= b < n ==> buckets[b] == Bucket(items[..i], hash, n, b)
    {
      assert items[..i + 1][..i] == items[..i];
      var h := BucketOf(hash, n, items[i].key);
      buckets := buckets[h := buckets[h] + [items[i]]];
    }
    assert items[..|items|] == items;
    forall b | 0 <= b < n ensures HoldsBucket(items, hash, n, b, buckets[b]) {
      var places := BucketIsSifted(items, hash, n, b);
    }
  }

  /** As bags: what a bucket holds of an item is all there is of it, or nothing. */
  lemma BucketShare(items: seq<KeyValue>, hash: string -> nat, n: nat, b: nat, kv: KeyValue)
    requires 0 <= b < n
    ensures multiset(Bucket(items, hash, n, b))[kv] == if Leaves(hash(kv.key), n, b) then multiset(items)[kv] else 0
  {
    BucketCount(items, hash, n, b, kv);
    BucketLeaves(hash, n, kv.key, b);
  }

  function Flatten<T>(xss: seq<seq<T>>): seq<T> {
    if xss == [] then [] else Flatten(xss[..|xss| - 1]) + xss[|xss| - 1]
  }

  /** Everything the map function makes of the inputs, in order. */
  function Mapped(inputs: seq<Input>, mapf: MapFunc): seq<KeyValue> {
    if inputs == [] then []
    else
      var n := |inputs| - 1;
      Mapped(inputs[..n], mapf) + mapf(inputs[n].name, inputs[n].content)
  }

  lemma {:induction false} MappedIsFlat(inputs: seq<Input>, mapf: MapFunc)
    ensures Mapped(inputs, mapf) == Flatten(seq(|inputs|, i requires 0 <= i < |inputs| => mapf(inputs[i].name, inputs[i].content)))
  {
    if inputs != [] {
      var n := |inputs| - 1;
      var front := inputs[..n];
      MappedIsFlat(front, mapf);
      var all := seq(|inputs|, i requires 0 <= i < |inputs| => mapf(inputs[i].name, inputs[i].content));
      assert all[..n] == seq(|front|, i requires 0 <= i < |front| => mapf(front[i].name, front[i].content));
    }
  }

  method MapFiles(inputs: seq<Input>, mapf: MapFunc) returns (items: seq<KeyValue>)
    ensures items == Mapped(inputs, mapf)
    ensures items == Flatten(seq(|inputs|, i requires 0 <= i < |inputs| => mapf(inputs[i].name, inputs[i].content)))
  {
    MappedIsFlat(inputs, mapf);
    items := [];
    for i := 0 to |inputs|
      invariant items == Mapped(inputs[..i], mapf)
    {
      assert inputs[..i + 1][..i] == inputs[..i];
      items := items + mapf(inputs[i].name, inputs[i].content);
    }
    assert inputs[..|inputs|] == inputs;
  }

  /** The sequential program: map everything, sort by key, reduce each run. The sort may leave
      equal keys in any order. */
  method Sequential(inputs: seq<Input>, mapf: MapFunc, reducef: ReduceFunc) returns (out: seq<KeyValue>)
    ensures OutputOf(Mapped(inputs, mapf), reducef, out) && Ascending(out)
  {
    var items := MapFiles(inputs, mapf);
    KeyIsPreorder();
    hide TotalPreorder, InOrder, OutputFor;
    var sorted := SortBy(KeyLeq, items);
    out := Group(sorted, reducef);
  }

  /** One reduce task: what its files hold, in whatever order they are read, sorted and reduced. */
  method ReduceFiles(contents: seq<seq<KeyValue>>, reducef: ReduceFunc) returns (out: seq<KeyValue>)
    ensures OutputOf(Flatten(contents), reducef, out) && Ascending(out)
  {
    var items := [];
    for i := 0 to |contents|
      invariant items == Flatten(contents[..i])
    {
      assert contents[..i + 1][..i] == contents[..i];
      items := items + contents[i];
    }
    assert contents[..|contents|] == contents;
    KeyIsPreorder();
    hide TotalPreorder, InOrder, OutputFor;
    var sorted := SortBy(KeyLeq, items);
    out := Group(sorted, reducef);
  }

  // ---- only the bag of items matters

  lemma {:induction false} ValuesCount(items: seq<KeyValue>, key: string, v: string)
    ensures multiset(Values(items, key))[v] == multiset(items)[KeyValue(key, v)]
  {
    if items != [] {
      var n := |items| - 1;
      var front, last := items[..n], items[n];
      ValuesCount(front, key, v);
      assert items == front + [last];
      assert multiset(items) == multiset(front) + multiset{last};
      if last.key == key {
        assert Values(items, key) == Values(front, key) + [last.value];
        assert last == KeyValue(key, last.value);
      } else {
        assert Values(items, key) == Values(front, key);
      }
    }
  }

  lemma {:induction false} BucketCount(items: seq<KeyValue>, hash: string -> nat, n: nat, b: nat, kv: KeyValue)
    requires n > 0
    ensures multiset(Bucket(items, hash, n, b))[kv] == if BucketOf(hash, n, kv.key) == b then multiset(items)[kv] else 0
  {
    if items != [] {
      var m := |items| - 1;
      var front, last := items[..m], items[m];
      BucketCount(front, hash, n, b, kv);
      assert items == front + [last];
      assert multiset(items) == multiset(front) + multiset{last};
      if BucketOf(hash, n, last.key) == b {
        assert Bucket(items, hash, n, b) == Bucket(front, hash, n, b) + [last];
      } else {
        assert Bucket(items, hash, n, b) == Bucket(front, hash, n, b);
      }
    }
  }

  lemma KeyHasItem(items: seq<KeyValue>, key: string)
    ensures key in KeysOf(items) <==> exists v :: KeyValue(key, v) in multiset(items)
  {
    if key in KeysOf(items) {
      var i :| 0 <= i < |items| && items[i].key == key;
      assert KeyValue(key, items[i].value) in multiset(items);
    }
    if v :| KeyValue(key, v) in multiset(items) {
      var i :| 0 <= i < |items| && items[i] == KeyValue(key, v);
      assert items[i].key == key;
    }
  }

  function KeysIn(items: seq<KeyValue>, hash: string -> nat, n: nat, b: nat): set<string>
    requires n > 0
  {
    set k | k in KeysOf(items) && BucketOf(hash, n, k) == b
  }

  lemma BucketKey(items: seq<KeyValue>, part: seq<KeyValue>, hash: string -> nat, n: nat, b: nat, key: string)
    requires n > 0 && multiset(part) == multiset(Bucket(items, hash, n, b))
    ensures key in KeysOf(part) <==> key in KeysIn(items, hash, n, b)
  {
    KeyHasItem(part, key);
    KeyHasItem(items, key);
    forall v ensures KeyValue(key, v) in multiset(part) <==> BucketOf(hash, n, key) == b && KeyValue(key, v) in multiset(items) {
      BucketCount(items, hash, n, b, KeyValue(key, v));
    }
  }

  lemma BucketValues(items: seq<KeyValue>, part: seq<KeyValue>, hash: string -> nat, n: nat, b: nat, key: string)
    requires n > 0 && multiset(part) == multiset(Bucket(items, hash, n, b)) && BucketOf(hash, n, key) == b
    ensures multiset(Values(part, key)) == multiset(Values(items, key))
  {
    forall v ensures multiset(Values(part, key))[v] == multiset(Values(items, key))[v] {
      ValuesCount(part, key, v);
      ValuesCount(items, key, v);
      BucketCount(items, hash, n, b, KeyValue(key, v));
    }
  }

  /** What a reduce task makes of its bucket is what the whole would give for the bucket's keys. */
  lemma BucketOutput(items: seq<KeyValue>, part: seq<KeyValue>, hash: string -> nat, n: nat, b: nat, reducef: ReduceFunc, out: seq<KeyValue>)
    requires n > 0 && multiset(part) == multiset(Bucket(items, hash, n, b)) && Insensitive(reducef)
    requires OutputFor(part, KeysOf(part), reducef, out)
    ensures OutputFor(items, KeysIn(items, hash, n, b), reducef, out)
  {
    forall key ensures key in KeysOf(part) <==> key in KeysIn(items, hash, n, b) {
      BucketKey(items, part, hash, n, b, key);
    }
    assert KeysOf(part) == KeysIn(items, hash, n, b);
    forall i | 0 <= i < |out| ensures out[i].value == reducef(out[i].key, Values(items, out[i].key)) {
      assert out[i].key in KeysOf(out);
      BucketValues(items, part, hash, n, b, out[i].key);
    }
  }

  lemma OutputsJoin(items: seq<KeyValue>, p: set<string>, q: set<string>, reducef: ReduceFunc, a: seq<KeyValue>, b: seq<KeyValue>)
    requires OutputFor(items, p, reducef, a) && OutputFor(items, q, reducef, b) && p !! q
    ensures OutputFor(items, p + q, reducef, a + b)
  {
    KeysConcat(a, b);
    forall i, j | 0 <= i < |a| && 0 <= j < |b| ensures a[i].key != b[j].key {
      assert a[i].key in KeysOf(a) && b[j].key in KeysOf(b);
    }
  }

  function KeysBelow(items: seq<KeyValue>, hash: string -> nat, n: nat, m: nat): set<string>
    requires n > 0
  {
    set k | k in KeysOf(items) && BucketOf(hash, n, k) < m
  }

  /** The buckets' outputs, put together, are an output of the whole. */
  lemma {:induction false} BucketsJoin(items: seq<KeyValue>, hash: string -> nat, n: nat, reducef: ReduceFunc, outs: seq<seq<KeyValue>>, m: nat)
    requires n > 0 && m <= n == |outs|
    requires forall b :: 0 <= b < n ==> OutputFor(items, KeysIn(items, hash, n, b), reducef, outs[b])
    ensures OutputFor(items, KeysBelow(items, hash, n, m), reducef, Flatten(outs[..m]))
  {
    if m == 0 {
      assert outs[..0] == [];
    } else {
      BucketsJoin(items, hash, n, reducef, outs, m - 1);
      assert outs[..m][..m - 1] == outs[..m - 1];
      OutputsJoin(items, KeysBelow(items, hash, n, m - 1), KeysIn(items, hash, n, m - 1), reducef, Flatten(outs[..m - 1]), outs[m - 1]);
      assert KeysBelow(items, hash, n, m) == KeysBelow(items, hash, n, m - 1) + KeysIn(items, hash, n, m - 1);
    }
  }

  /** Two outputs for the same keys over the same bag of items have the same lines. */
  lemma SameLines(a: seq<KeyValue>, b: seq<KeyValue>, keys: set<string>, reducef: ReduceFunc, out: seq<KeyValue>, other: seq<KeyValue>)
    requires multiset(a) == multiset(b) && Insensitive(reducef)
    requires OutputFor(a, keys, reducef, out) && OutputFor(b, keys, reducef, other)
    ensures multiset(out) == multiset(other)
  {
    forall line ensures multiset(out)[line] == multiset(other)[line] {
      LineIn(a, b, keys, reducef, out, other, line);
      LineIn(b, a, keys, reducef, other, out, line);
      CountOnce(out, line);
      CountOnce(other, line);
    }
  }

  lemma LineIn(a: seq<KeyValue>, b: seq<KeyValue>, keys: set<string>, reducef: ReduceFunc, out: seq<KeyValue>, other: seq<KeyValue>, line: KeyValue)
    requires multiset(a) == multiset(b) && Insensitive(reducef)
    requires OutputFor(a, keys, reducef, out) && OutputFor(b, keys, reducef, other)
    ensures line in multiset(out) ==> line in multiset(other)
  {
    if line in multiset(out) {
      var i :| 0 <= i < |out| && out[i] == line;
      assert line.key in KeysOf(out);
      var j :| 0 <= j < |other| && other[j].key == line.key;
      assert multiset(Values(a, line.key)) == multiset(Values(b, line.key)) by {
        forall v ensures multiset(Values(a, line.key))[v] == multiset(Values(b, line.key))[v] {
          ValuesCount(a, line.key, v);
          ValuesCount(b, line.key, v);
        }
      }
      assert other[j] == line;
    }
  }

  lemma BagKeys(a: seq<KeyValue>, b: seq<KeyValue>)
    requires multiset(a) == multiset(b)
    ensures KeysOf(a) == KeysOf(b)
  {
    forall key ensures key in KeysOf(a) <==> key in KeysOf(b) {
      KeyHasItem(a, key);
      KeyHasItem(b, key);
    }
  }

  /** Distributed equals sequential: however the items of each bucket arrive, and however equal
      keys are sorted, all buckets' lines together are the sequential program's lines, one for
      each key. */
  lemma DistributedEqualsSequential(items: seq<KeyValue>, out: seq<KeyValue>, hash: string -> nat, n: nat,
                                    reducef: ReduceFunc, parts: seq<seq<KeyValue>>, outs: seq<seq<KeyValue>>)
    requires n > 0 && Insensitive(reducef) && |parts| == |outs| == n
    requires OutputOf(items, reducef, out)
    requires forall b :: 0 <= b < n ==> multiset(parts[b]) == multiset(Bucket(items, hash, n, b))
    requires forall b :: 0 <= b < n ==> OutputOf(parts[b], reducef, outs[b])
    ensures multiset(Flatten(outs)) == multiset(out)
  {
    hide OutputFor, KeysOf, Insensitive;
    forall b | 0 <= b < n ensures OutputFor(items, KeysIn(items, hash, n, b), reducef, outs[b]) {
      var part :| multiset(part) == multiset(parts[b]) && OutputFor(part, KeysOf(part), reducef, outs[b]);
      BucketOutput(items, part, hash, n, b, reducef, outs[b]);
    }
    BucketsJoin(items, hash, n, reducef, outs, n);
    assert outs[..n] == outs;
    assert KeysBelow(items, hash, n, n) == KeysOf(items);
    var sorted :| multiset(sorted) == multiset(items) && OutputFor(sorted, KeysOf(sorted), reducef, out);
    BagKeys(items, sorted);
    SameLines(items, sorted, KeysOf(items), reducef, Flatten(outs), out);
  }
}
