/** Majorities, and how logs that come from term leaders relate. */
module RaftLogs {
  import opened RaftPeer
  import opened RaftCluster
  import opened RaftInvariant

  /** All peers of a cluster of n. */
  function Everyone(n: nat): (r: set<nat>)
    ensures |r| == n && forall m: nat :: m in r <==> m < n
  {
    if n == 0 then {} else Everyone(n - 1) + {n - 1}
  }

  lemma SubsetCount(a: set<nat>, b: set<nat>)
    requires a <= b
    ensures |a| <= |b|
  {
    assert b == a + (b - a);
  }

  /** Any two majorities share a peer. */
  lemma QuorumsMeet(a: set<nat>, b: set<nat>, n: nat) returns (m: nat)
    requires IsQuorum(a, n) && IsQuorum(b, n)
    ensures m in a && m in b
  {
    if a * b == {} {
      assert |a + b| == |a| + |b|;
      SubsetCount(a + b, Everyone(n));
    }
    m :| m in a * b;
  }

  /** Half of the peers, rounded down, and one more are a majority, whatever their number. */
  lemma EnoughIsQuorum(voters: set<nat>, id: nat, n: nat)
    requires Enough(voters, n) && id < n && id !in voters && forall v :: v in voters ==> v < n
    ensures IsQuorum(voters + {id}, n)
  {
    assert |voters + {id}| == |voters| + 1;
  }

  /** And no more are asked for: any others that make a majority with the peer are enough. */
  lemma EnoughIffQuorum(voters: set<nat>, id: nat, n: nat)
    requires id < n && id !in voters && voters != {} && forall v :: v in voters ==> v < n
    ensures Enough(voters, n) <==> IsQuorum(voters + {id}, n)
  {
    assert |voters + {id}| == |voters| + 1;
  }

  lemma ChosenIsNotBlocked(h: History, terms: seq<int>, term: int, i: int)
    requires Chosen(h, |terms|, term, i)
    ensures !Blocked(h, terms, term, i)
  {
    if Blocked(h, terms, term, i) {
      var a :| IsQuorum(a, |terms|) && AllAcked(h, a, term, i);
      var b :| IsQuorum(b, |terms|) && NoneWillAck(h, terms, b, term, i);
      var m := QuorumsMeet(a, b, |terms|);
      assert false;
    }
  }

  /** A chosen entry, with everything before it, is in the log of every later leader. */
  lemma ChosenIsHeld(h: History, terms: seq<int>, term: int, i: int, u: int)
    requires Chosen(h, |terms|, term, i) && term <= u && u in h.logs && LeaderHolds(h, terms, u)
    ensures term in h.logs && Agree(h.logs[u], h.logs[term], i)
  {
    hide Chosen, Blocked;
    assert OwnTerm(h, term, i) by { ChosenOwn(h, |terms|, term, i); }
    if term < u {
      assert Secure(h, terms, term, i, h.logs[u]);
      ChosenIsNotBlocked(h, terms, term, i);
    }
  }

  lemma ChosenOwn(h: History, n: nat, term: int, i: int)
    requires Chosen(h, n, term, i)
    ensures OwnTerm(h, term, i)
  {
  }

  lemma AgreeDown(a: seq<LogEntry>, b: seq<LogEntry>, k: int, j: int)
    requires Agree(a, b, k) && 0 <= j <= k
    ensures Agree(a, b, j) && a[j] == b[j]
  {
    assert a[..j + 1] == a[..k + 1][..j + 1];
    assert b[..j + 1] == b[..k + 1][..j + 1];
    assert a[j] == a[..k + 1][j];
    assert b[j] == b[..k + 1][j];
  }

  /** Log matching: two logs with the same term at a position are the same up to it. */
  lemma LogsMatch(h: History, a: seq<LogEntry>, s: int, b: seq<LogEntry>, t: int, k: nat)
    requires GoodLog(h, a, s) && GoodLog(h, b, t)
    requires k < |a| && k < |b| && a[k].term == b[k].term
    ensures Agree(a, b, k)
  {
    hide SortedUpTo;
    assert EntryOk(h, a, k) && EntryOk(h, b, k);
    if k == 0 {
      assert a[..1] == [SENTINEL] == b[..1];
    }
  }

  lemma GoodPrefix(h: History, log: seq<LogEntry>, term: int, k: nat)
    requires GoodLog(h, log, term) && k < |log|
    ensures GoodLog(h, log[..k + 1], term)
  {
    var front := log[..k + 1];
    forall j: nat | j < |front| ensures EntryOk(h, front, j) {
      assert EntryOk(h, log, j);
      assert front[..j + 1] == log[..j + 1];
    }
  }

  /** A log whose entry at the previous position has the leader's term there agrees with
      the leader up to it; in particular the scan for another term cannot fall through. */
  lemma AcceptedAgrees(h: History, n: nat, log: seq<LogEntry>, term: int, args: AppendArgs)
    requires GoodLog(h, log, term) && AppendOk(h, n, args) && GoodLog(h, h.logs[args.term], args.term)
    requires Judge(log, args).Accepted?
    ensures Agree(log, h.logs[args.term], args.prevLogIndex)
    ensures StartOf(args) == args.prevLogIndex + 1 && Payload(args) == args.entries
  {
    hide SortedUpTo, Known, OwnTerm;
    var prev := args.prevLogIndex;
    if prev > 0 {
      assert EntryOk(h, log, prev) && EntryOk(h, log, 0);
    } else {
      assert args.entries[0..] == args.entries;
    }
    LogsMatch(h, log, term, h.logs[args.term], args.term, prev);
  }

  /** What an accepted append leaves: the old log or the leader's, agreeing with the leader as
      far as the append went. */
  lemma OverwrittenAgrees(h: History, log: seq<LogEntry>, s: int, lead: seq<LogEntry>, t: int, prev: nat, entries: seq<LogEntry>)
    requires GoodLog(h, log, s) && GoodLog(h, lead, t) && Agree(log, lead, prev)
    requires Stretch(lead, prev, entries)
    ensures var after, m := Overwritten(log, prev + 1, entries), prev + |entries|;
      Agree(after, lead, m) && (after == log || after == lead[..m + 1])
    ensures var rest := entries[Agreement(log, prev + 1, entries)..];
      |rest| > 0 ==> LastEntry(rest).index == prev + |entries|
  {
    hide GoodLog, Agreement, Agree;
    var j, m := Agreement(log, prev + 1, entries), prev + |entries|;
    AgreementReaches(h, log, s, lead, t, prev, entries);
    if j < |entries| {
      Spliced(log, lead, prev, j, entries);
      assert entries[j..][|entries| - j - 1] == lead[m];
      assert lead[m].index == m by { GoodIndex(h, lead, t, m); }
    }
  }

  lemma GoodIndex(h: History, log: seq<LogEntry>, term: int, k: nat)
    requires GoodLog(h, log, term) && k < |log|
    ensures log[k].index == k
  {
    assert EntryOk(h, log, k);
  }

  lemma AgreementReaches(h: History, log: seq<LogEntry>, s: int, lead: seq<LogEntry>, t: int, prev: nat, entries: seq<LogEntry>)
    requires GoodLog(h, log, s) && GoodLog(h, lead, t) && Agree(log, lead, prev)
    requires Stretch(lead, prev, entries)
    ensures Agree(log, lead, prev + Agreement(log, prev + 1, entries))
  {
    hide GoodLog, Agreement, Agree;
    AgreeBounds(log, lead, prev);
    var j := Agreement(log, prev + 1, entries);
    if j > 0 {
      assert log[prev + 1 + (j - 1)].term == entries[j - 1].term == lead[prev + j].term;
      LogsMatch(h, log, s, lead, t, prev + j);
    }
  }

  lemma Spliced(log: seq<LogEntry>, lead: seq<LogEntry>, prev: nat, j: nat, entries: seq<LogEntry>)
    requires Agree(log, lead, prev + j) && j <= |entries|
    requires Stretch(lead, prev, entries)
    ensures log[..prev + 1 + j] + entries[j..] == lead[..prev + |entries| + 1]
    ensures Agree(lead[..prev + |entries| + 1], lead, prev + |entries|)
  {
    assert entries[j..] == lead[prev + 1 + j..prev + 1 + |entries|];
    assert lead[..prev + 1 + j] + lead[prev + 1 + j..prev + 1 + |entries|] == lead[..prev + |entries| + 1];
  }

  /** An append from a leader never cuts what the log has in common with that leader. */
  lemma OverwrittenKeeps(h: History, log: seq<LogEntry>, s: int, lead: seq<LogEntry>, t: int, prev: nat, entries: seq<LogEntry>, i: int)
    requires GoodLog(h, log, s) && GoodLog(h, lead, t) && Agree(log, lead, prev)
    requires Stretch(lead, prev, entries)
    requires Agree(log, lead, i)
    ensures Agree(Overwritten(log, prev + 1, entries), lead, i)
  {
    hide GoodLog, Agreement, Agree;
    AgreeBounds(log, lead, prev);
    AgreeBounds(log, lead, i);
    OverwrittenAgrees(h, log, s, lead, t, prev, entries);
    if i <= prev + |entries| {
      AgreeDown(Overwritten(log, prev + 1, entries), lead, prev + |entries|, i);
    } else {
      NoConflict(log, lead, prev, entries, i);
    }
  }

  lemma NoConflict(log: seq<LogEntry>, lead: seq<LogEntry>, prev: nat, entries: seq<LogEntry>, i: int)
    requires Stretch(lead, prev, entries)
    requires Agree(log, lead, i) && prev + |entries| < i
    ensures Agreement(log, prev + 1, entries) == |entries|
  {
    hide Agreement;
    var j := Agreement(log, prev + 1, entries);
    if j < |entries| {
      assert entries[j] == lead[prev + 1 + j];
      AgreeDown(log, lead, i, prev + 1 + j);
      assert false;
    }
  }

  lemma AgreeBounds(a: seq<LogEntry>, b: seq<LogEntry>, k: int)
    requires Agree(a, b, k)
    ensures 0 <= k < |a| && k < |b|
  {
  }
}
