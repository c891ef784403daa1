/** The de-duplicating key/value server, and a clerk's call with all its retries. */
module KvServer {
  import opened Kv

  /** Gets, puts and appends are what a clerk can ask for; appends return the old value. */
  predicate Offered(inp: KvInput) {
    inp.op == 0 || inp.op == 1 || inp.op == 3
  }

  /** What the server answers to a request it has not seen. */
  function Answer(store: map<string, string>, inp: KvInput): string {
    if inp.op == 1 then inp.value else Lookup(store, inp.key)
  }

  /** The store once the request has taken effect. */
  function Effected(store: map<string, string>, inp: KvInput): map<string, string> {
    if inp.op == 0 then store
    else if inp.op == 1 then store[inp.key := inp.value]
    else store[inp.key := Lookup(store, inp.key) + inp.value]
  }

  /** What becomes of one call: the request is lost, or the reply is, or both arrive. */
  datatype Fate = RequestLost | ReplyLost | Delivered

  class KVServer {
    var kvPair: map<string, string>
    var cache: map<int, string>

    constructor ()
      ensures kvPair == map[] && cache == map[]
    {
      kvPair, cache := map[], map[];
    }

    /** The locked part of a request that the cache does not know. */
    method Modify(id: int, inp: KvInput) returns (value: string)
      requires Offered(inp)
      modifies this
      ensures value == Answer(old(kvPair), inp) && kvPair == Effected(old(kvPair), inp)
      ensures inp.op == 0 ==> value == Lookup(old(kvPair), inp.key) && kvPair == old(kvPair)
      ensures inp.op == 1 ==> value == inp.value && kvPair == old(kvPair)[inp.key := inp.value]
      ensures inp.op == 3 ==> value == Lookup(old(kvPair), inp.key) && kvPair == old(kvPair)[inp.key := value + inp.value]
      ensures cache == old(cache)[id := value]
    {
      var was := if inp.key in kvPair then kvPair[inp.key] else "";
      if inp.op == 0 {
        value := was;
      } else if inp.op == 1 {
        kvPair := kvPair[inp.key := inp.value];
        value := inp.value;
      } else {
        kvPair := kvPair[inp.key := was + inp.value];
        value := was;
      }
      cache := cache[id := value];
    }

    /** A request that has been answered before gets the same answer and changes nothing. */
    method Serve(id: int, inp: KvInput) returns (value: string)
      requires Offered(inp)
      modifies this
      ensures id in old(cache) ==> value == old(cache)[id] && kvPair == old(kvPair) && cache == old(cache)
      ensures id !in old(cache) ==> value == Answer(old(kvPair), inp) && kvPair == Effected(old(kvPair), inp) && cache == old(cache)[id := value]
    {
      if id in cache {
        return cache[id];
      }
      value := Modify(id, inp);
    }

    method Done(id: int)
      modifies this
      ensures kvPair == old(kvPair) && cache == old(cache) - {id}
    {
      cache := cache - {id};
    }
  }

  /** A clerk's call against a server nobody else is using, with a fate for every attempt of the
      request and of the Done that follows. However many attempts there are, the request takes
      effect once, the answer is the first one's, and the server ends up remembering nothing. */
  method Call(kv: KVServer, id: int, inp: KvInput, tries: seq<Fate>, dones: seq<Fate>) returns (value: string)
    requires Offered(inp) && id !in kv.cache
    requires Delivered in tries && Delivered in dones
    modifies kv
    ensures value == Answer(old(kv.kvPair), inp) && kv.kvPair == Effected(old(kv.kvPair), inp)
    ensures kv.cache == old(kv.cache)
  {
    var i, got := 0, false;
    value := "";
    while !got
      invariant 0 <= i <= |tries| && (!got ==> Delivered in tries[i..])
      invariant id !in kv.cache ==> !got && kv.kvPair == old(kv.kvPair) && kv.cache == old(kv.cache)
      invariant id in kv.cache ==> kv.kvPair == Effected(old(kv.kvPair), inp) && kv.cache == old(kv.cache)[id := Answer(old(kv.kvPair), inp)]
      invariant got ==> id in kv.cache && value == kv.cache[id]
      decreases |tries| - i, !got
    {
      if tries[i] != RequestLost {
        var reply := kv.Serve(id, inp);
        if tries[i] == Delivered {
          value, got := reply, true;
        }
      }
      i := i + 1;
    }
    i, got := 0, false;
    while !got
      invariant 0 <= i <= |dones| && (!got ==> Delivered in dones[i..])
      invariant kv.kvPair == Effected(old(kv.kvPair), inp)
      invariant kv.cache == old(kv.cache) || (!got && kv.cache == old(kv.cache)[id := Answer(old(kv.kvPair), inp)])
      decreases |dones| - i, !got
    {
      if dones[i] != RequestLost {
        kv.Done(id);
        got := dones[i] == Delivered;
      }
      i := i + 1;
    }
  }
}
