/** How a leader moves back when a follower turns an append down. */
module RaftBackoff {
  import opened RaftPeer
  import opened RaftCluster
  import opened RaftInvariant
  import opened RaftGrowth
  import opened RaftLogs
  import opened RaftReplication
  import opened RaftSafety

  /** What the search for a term in a log comes back with, if it comes back. */
  datatype Lookup = OutOfRange | Absent | Present(index: int)

  ghost predicate Rising(log: seq<LogEntry>) {
    forall j, k :: 0 <= j <= k < |log| ==> log[j].term <= log[k].term
  }

  /** x is the last position of the term in the log. */
  ghost predicate LastOf(log: seq<LogEntry>, term: int, x: int) {
    0 <= x < |log| && log[x].term == term && forall k :: x < k < |log| ==> log[k].term != term
  }

  /** The outcome, in terms of what the log holds. The last position of the term is found only
      when another entry follows it before the log's last slot; otherwise the answer is 0. */
  ghost predicate LookedUp(log: seq<LogEntry>, term: int, r: Lookup) {
    match r
    case OutOfRange => forall k :: 0 <= k < |log| ==> log[k].term < term
    case Absent => (forall k :: 0 <= k < |log| ==> log[k].term != term) && exists k :: 0 <= k < |log| && log[k].term > term
    case Present(index) => exists x :: LastOf(log, term, x) && index == if x + 1 < |log| - 1 then x else 0
  }

  method FindTerm(log: seq<LogEntry>, term: int) returns (r: Lookup)
    requires Rising(log)
    ensures LookedUp(log, term, r)
  {
    var left, right := 0, |log| - 1;
    while left <= right
      invariant 0 <= left <= right + 1 <= |log|
      invariant forall k :: 0 <= k < left ==> log[k].term < term
      invariant forall k :: right < k < |log| ==> log[k].term > term
    {
      var mid := (left + right) / 2;
      if log[mid].term == term {
        left := mid;
        break;
      } else if log[mid].term < term {
        left := mid + 1;
      } else {
        right := mid - 1;
      }
    }
    if left == |log| {
      return OutOfRange;
    }
    if log[left].term != term {
      assert log[left].term > term;
      return Absent;
    }
    var i := left + 1;
    while i < |log| - 1
      invariant left < i && (i < |log| || (left == |log| - 1 && i == |log|))
      invariant forall k :: left <= k < i ==> log[k].term == term
    {
      if log[i].term != term {
        assert LastOf(log, term, i - 1);
        return Present(i - 1);
      }
      i := i + 1;
    }
    if i < |log| && log[i].term == term {
      assert LastOf(log, term, i);
    } else {
      assert LastOf(log, term, i - 1);
    }
    return Present(0);
  }

  /** Where the leader resumes after a refusal; Crashed when the search runs off the log. */
  datatype Resume = Crashed | From(start: int)

  function Resumption(found: Lookup, xIndex: int): Resume {
    match found
    case OutOfRange => Crashed
    case Absent => From(xIndex)
    case Present(index) => From(index)
  }

  /** Where the leader resumes, said of its log and the reply: at the follower's length when the
      follower is short; past the term the reply names when the leader has it; at the index the
      reply names when the leader has not. */
  ghost predicate Adjusted(log: seq<LogEntry>, prev: int, reply: AppendReply, r: Resume) {
    if reply.xLen - 1 < prev then r == From(reply.xLen)
    else if forall k :: 0 <= k < |log| ==> log[k].term < reply.xTerm then r == Crashed
    else if forall k :: 0 <= k < |log| ==> log[k].term != reply.xTerm then r == From(reply.xIndex)
    else exists x :: LastOf(log, reply.xTerm, x) && r == From(if x + 1 < |log| - 1 then x else 0)
  }

  method Adjust(log: seq<LogEntry>, prev: int, reply: AppendReply) returns (r: Resume)
    requires Rising(log)
    ensures Adjusted(log, prev, reply, r)
  {
    if reply.xLen - 1 < prev {
      return From(reply.xLen);
    }
    var found := FindTerm(log, reply.xTerm);
    return Resumption(found, reply.xIndex);
  }

  /** A term that the follower has at prev, and the leader has not, ends below prev in the
      leader's log. */
  lemma TermEndsBelow(h: History, lead: seq<LogEntry>, s: int, log: seq<LogEntry>, t: int, prev: nat, x: int)
    requires GoodLog(h, lead, s) && GoodLog(h, log, t) && 0 < prev < |log| && prev < |lead|
    requires lead[prev].term != log[prev].term && LastOf(lead, log[prev].term, x)
    ensures x < prev
  {
    if prev <= x {
      var u := log[prev].term;
      assert EntryOk(h, log, prev);
      assert EntryOk(h, lead, x);
      AgreeDown(log, h.logs[u], prev, prev);
      AgreeDown(lead, h.logs[u], x, prev);
      assert false;
    }
  }

  /** The refusal of a well-formed append, judged against the leader's own log. */
  lemma RefusalLowers(h: History, n: nat, lead: seq<LogEntry>, p: Peer, args: AppendArgs, r: Resume)
    requires AppendOk(h, n, args) && lead == h.logs[args.term] && |args.entries| > 0 && p.term <= args.term
    requires GoodLog(h, lead, args.term) && GoodLog(h, p.log, p.term)
    requires !AppendEntries(p, args).1.success && Adjusted(lead, args.prevLogIndex, AppendEntries(p, args).1, r)
    ensures r.From? && 0 <= r.start <= args.prevLogIndex
  {
    hide Known, EntryOk;
    var prev, reply := args.prevLogIndex, AppendEntries(p, args).1;
    if reply.xLen - 1 >= prev {
      var xTerm := p.log[prev].term;
      assert Judge(p.log, args).Mismatch? && reply.xTerm == xTerm;
      var end := prev + |args.entries|;
      assert lead[end].term == args.term >= xTerm;
      IndexBelow(h, p.log, p.term, prev);
      if !(forall k :: 0 <= k < |lead| ==> lead[k].term != xTerm) {
        var x :| LastOf(lead, xTerm, x) && r == From(if x + 1 < |lead| - 1 then x else 0);
        TermEndsBelow(h, lead, args.term, p.log, p.term, prev, x);
      }
    }
  }

  lemma IndexBelow(h: History, log: seq<LogEntry>, t: int, prev: nat)
    requires GoodLog(h, log, t) && prev < |log|
    ensures RunStart(log, prev) >= 0 ==> 0 <= log[RunStart(log, prev)].index <= prev
  {
    if RunStart(log, prev) >= 0 {
      assert EntryOk(h, log, RunStart(log, prev));
    }
  }

  lemma MessageLater(n: nat, run: seq<Cluster>, k: nat, l: nat, i: nat, args: AppendArgs)
    requires IsRun(n, run) && k <= l < |run| && AppendMessage(i, args) in run[k].appends
    ensures AppendMessage(i, args) in run[l].appends
    decreases l
  {
    hide Inv;
    if k < l {
      MessageLater(n, run, k, l - 1, i, args);
      assert Follows(run[l - 1], run[l]);
      var step :| Enabled(run[l - 1], step) && run[l] == Next(run[l - 1], step);
      AppendsStay(run[l - 1], step);
    }
  }

  lemma AppendsStay(c: Cluster, step: Step)
    requires Enabled(c, step)
    ensures c.appends <= Next(c, step).appends
  {
    hide Moved, Told;
  }

  lemma MessageAt(n: nat, run: seq<Cluster>, l: nat, i: nat, args: AppendArgs)
    requires IsRun(n, run) && l < |run| && AppendMessage(i, args) in run[l].appends
    ensures AppendOk(run[l].history, n, args)
  {
    hide HistoryOk, ServerOk, CrossOk, AppendOk;
    RunInv(n, run, l);
    assert MessageOk(run[l].history, n, AppendMessage(i, args));
  }

  /** Back-off progress: whenever a follower, at any time, turns down an append of its term or a
      later one because of its log, the leader, at any later time in that term, resumes strictly
      below where it was, and its search never leaves the log. */
  lemma BackoffProgress(n: nat, run: seq<Cluster>, k: nat, l: nat, i: nat, j: nat, args: AppendArgs, r: Resume)
    requires Visits(n, run, k, i) && Visits(n, run, l, j) && k <= l
    requires AppendMessage(i, args) in run[k].appends && |args.entries| > 0
    requires At(n, run, l, j).peer.role.Leader? && At(n, run, l, j).peer.term == args.term
    requires var p := At(n, run, k, i).peer;
      |p.log| > 0 && p.term <= args.term && !AppendEntries(p, args).1.success
      && Adjusted(At(n, run, l, j).peer.log, args.prevLogIndex, AppendEntries(p, args).1, r)
    ensures r.From? && 0 <= r.start < args.prevLogIndex + 1
  {
    AtIsOk(n, run, l, j);
    hide HistoryOk, IsRun, GoodLog, Committed, VotesOk, JobOk, CountedOk, AppendOk, AppendEntries, Adjusted;
    var h, p := run[l].history, At(n, run, k, i).peer;
    MessageLater(n, run, k, l, i, args);
    MessageAt(n, run, l, i, args);
    LaterLog(n, run, k, l, i);
    assert LeaderOk(h, n, j, At(n, run, l, j).peer);
    LeaderLogGood(h, n, args.term);
    RefusalLowers(h, n, At(n, run, l, j).peer.log, p, args, r);
  }
}
