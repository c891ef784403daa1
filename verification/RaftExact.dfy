/** What the handlers answer and do in a run, said of the logs and the messages alone. */
module RaftExact {
  import opened RaftPeer
  import opened RaftHandlers
  import opened RaftCluster
  import opened RaftInvariant
  import opened RaftGrowth
  import opened RaftLogs
  import opened RaftReplication
  import opened RaftAppend
  import opened RaftSafety
  import opened RaftBackoff

  // ---- votes

  lemma StandsWith(n: nat, run: seq<Cluster>, l: nat, j: nat)
    requires Visits(n, run, l, j) && At(n, run, l, j).peer.role.Candidate?
    ensures var p := At(n, run, l, j).peer;
      (p.term, j) in run[l].history.candidacies && run[l].history.candidacies[(p.term, j)] == p.log
  {
    AtIsOk(n, run, l, j);
    hide IsRun, HistoryOk, ServerOk, GoodLog, Committed, VotesOk, LeaderOk, At;
  }

  lemma AsksWith(n: nat, run: seq<Cluster>, k: nat, args: VoteArgs)
    requires IsRun(n, run) && k < |run| && args in run[k].voteRequests
    ensures VoteRequestOk(run[k].history, n, args)
  {
    hide IsRun, HistoryOk, CrossOk, ServerOk, VoteRequestOk;
    RunInv(n, run, k);
  }

  lemma RequestSays(n: nat, run: seq<Cluster>, k: nat, l: nat, j: nat, args: VoteArgs)
    requires Visits(n, run, l, j) && k < |run| && args in run[k].voteRequests && args.candidate == j
    requires At(n, run, l, j).peer.role.Candidate? && At(n, run, l, j).peer.term == args.term
    ensures var log := At(n, run, l, j).peer.log;
      |log| > 0 && args.lastLogTerm == log[|log| - 1].term && args.lastLogIndex == log[|log| - 1].index
  {
    hide IsRun, At, LogsGrow, AcksGrow;
    StandsWith(n, run, l, j);
    AsksWith(n, run, k, args);
    if k <= l { RunRemembers(n, run, k, l); } else { RunRemembers(n, run, l, k); }
  }

  /** Whoever stands in a later term with a log that the voter's log is a prefix of gets the vote,
      at whatever moments of the run the two are looked at. */
  lemma PrefixGetsVote(n: nat, run: seq<Cluster>, k: nat, l: nat, i: nat, j: nat, args: VoteArgs)
    requires Visits(n, run, k, i) && Visits(n, run, l, j) && args in run[k].voteRequests && args.candidate == j
    requires At(n, run, l, j).peer.role.Candidate? && At(n, run, l, j).peer.term == args.term
    requires At(n, run, k, i).peer.term < args.term && At(n, run, k, i).peer.log <= At(n, run, l, j).peer.log
    ensures |At(n, run, k, i).peer.log| > 0 && RequestVote(At(n, run, k, i).peer, args).1.granted
  {
    LogShape(n, run, k, i);
    LogShape(n, run, l, j);
    RequestSays(n, run, k, l, j, args);
    hide IsRun;
    var mine, theirs := At(n, run, k, i).peer.log, At(n, run, l, j).peer.log;
    assert mine[|mine| - 1] == theirs[|mine| - 1];
    VoteGrantedIff(At(n, run, k, i).peer, args);
  }

  // ---- appends, in runs

  /** The follower already has the entries, each in its place. */
  ghost predicate AlreadyHeld(log: seq<LogEntry>, args: AppendArgs) {
    && 0 <= args.prevLogIndex && args.prevLogIndex + |args.entries| < |log|
    && log[args.prevLogIndex + 1..args.prevLogIndex + 1 + |args.entries|] == args.entries
  }

  /** In a run, terms settle everything: a place held with the leader's term holds its entry. */
  lemma HeldIffHas(h: History, n: nat, p: Peer, args: AppendArgs)
    requires Takes(h, n, p, args)
    ensures args.prevLogIndex >= 0 && (AlreadyHeld(p.log, args) <==> Has(p.log, args.prevLogIndex + 1, args.entries))
  {
    hide Takes, GoodLog, Agree, AppendOk, Judge, Stretch, Has, AlreadyHeld;
    TakenAgrees(h, n, p, args);
    var prev, lead := args.prevLogIndex, Lead(h, args);
    AgreeBounds(p.log, lead, prev);
    if Has(p.log, prev + 1, args.entries) {
      HasIsHeld(h, p.log, args.term, lead, args.term, prev, args.entries);
      HeldAtOnce(p.log, args);
    }
    if AlreadyHeld(p.log, args) {
      HeldHas(p.log, args);
    }
  }

  lemma HeldAtOnce(log: seq<LogEntry>, args: AppendArgs)
    requires 0 <= args.prevLogIndex && args.prevLogIndex + |args.entries| < |log|
    requires log[args.prevLogIndex + 1..args.prevLogIndex + 1 + |args.entries|] == args.entries
    ensures AlreadyHeld(log, args)
  {
  }

  lemma HeldHas(log: seq<LogEntry>, args: AppendArgs)
    requires AlreadyHeld(log, args)
    ensures Has(log, args.prevLogIndex + 1, args.entries)
  {
    hide Has;
    SliceHas(log, args.prevLogIndex, args.entries);
  }

  lemma SliceHas(log: seq<LogEntry>, prev: nat, entries: seq<LogEntry>)
    requires prev + |entries| < |log| && log[prev + 1..prev + 1 + |entries|] == entries
    ensures Has(log, prev + 1, entries)
  {
    forall j: nat | j < |entries| ensures prev + 1 + j < |log| && log[prev + 1 + j].term == entries[j].term {
      assert log[prev + 1..prev + 1 + |entries|][j] == entries[j];
    }
  }

  lemma HasIsHeld(h: History, log: seq<LogEntry>, s: int, lead: seq<LogEntry>, t: int, prev: nat, entries: seq<LogEntry>)
    requires GoodLog(h, log, s) && GoodLog(h, lead, t) && Stretch(lead, prev, entries) && prev < |log| && Has(log, prev + 1, entries)
    ensures prev + |entries| < |log| && log[prev + 1..prev + 1 + |entries|] == entries
  {
    hide GoodLog, Agree;
    var m := |entries|;
    if m > 0 {
      HasAt(log, prev + 1, entries, m - 1);
      LogsMatch(h, log, s, lead, t, prev + m);
      SlicesAgree(log, lead, prev, m);
    }
  }

  lemma SlicesAgree(a: seq<LogEntry>, b: seq<LogEntry>, prev: nat, m: nat)
    requires Agree(a, b, prev + m)
    ensures a[prev + 1..prev + 1 + m] == b[prev + 1..prev + 1 + m]
  {
    assert a[prev + 1..prev + 1 + m] == a[..prev + m + 1][prev + 1..];
    assert b[prev + 1..prev + 1 + m] == b[..prev + m + 1][prev + 1..];
  }

  /** What a taken append leaves of a log, without looking for conflicts. */
  lemma TakenExactly(h: History, n: nat, p: Peer, args: AppendArgs)
    requires Takes(h, n, p, args)
    ensures args.prevLogIndex >= 0 && args.prevLogIndex < |p.log|
    ensures Accept(p, args).log == if AlreadyHeld(p.log, args) then p.log else p.log[..args.prevLogIndex + 1] + args.entries
    ensures !AlreadyHeld(p.log, args) ==> args.entries != [] && args.entries[|args.entries| - 1].index == |Accept(p, args).log| - 1
  {
    hide Takes, GoodLog, Agree, AppendOk, Judge, Accept, Stretch, Agreement, AlreadyHeld, Has, Overwritten;
    HeldIffHas(h, n, p, args);
    TakenAgrees(h, n, p, args);
    TakenIs(h, n, p, args);
    var prev, lead := args.prevLogIndex, Lead(h, args);
    AgreeBounds(p.log, lead, prev);
    WholeOrHeld(p.log, prev, args.entries);
    if !Has(p.log, prev + 1, args.entries) {
      NewTail(h, p.log, args.term, lead, args.term, prev, args.entries);
    }
  }

  lemma WholeOrHeld(log: seq<LogEntry>, prev: nat, entries: seq<LogEntry>)
    requires prev < |log|
    ensures Has(log, prev + 1, entries) <==> Agreement(log, prev + 1, entries) == |entries|
    ensures Has(log, prev + 1, entries) ==> Overwritten(log, prev + 1, entries) == log
  {
    hide Agreement;
    var j := Agreement(log, prev + 1, entries);
    if j < |entries| && Has(log, prev + 1, entries) {
      HasAt(log, prev + 1, entries, j);
      assert false;
    }
  }

  lemma StretchLast(lead: seq<LogEntry>, prev: nat, entries: seq<LogEntry>)
    requires Stretch(lead, prev, entries)
    ensures prev + |entries| < |lead| && (entries != [] ==> entries[|entries| - 1] == lead[prev + |entries|])
  {
  }

  lemma NewTail(h: History, log: seq<LogEntry>, s: int, lead: seq<LogEntry>, t: int, prev: nat, entries: seq<LogEntry>)
    requires GoodLog(h, log, s) && GoodLog(h, lead, t) && Agree(log, lead, prev) && Stretch(lead, prev, entries) && prev < |log|
    requires !Has(log, prev + 1, entries)
    ensures entries != [] && Overwritten(log, prev + 1, entries) == log[..prev + 1] + entries
    ensures entries[|entries| - 1].index == prev + |entries|
  {
    hide GoodLog, Agree, Agreement, Has, Stretch;
    StretchLast(lead, prev, entries);
    WholeOrHeld(log, prev, entries);
    var j := Agreement(log, prev + 1, entries);
    AgreementReaches(h, log, s, lead, t, prev, entries);
    Spliced(log, lead, prev, j, entries);
    Spliced(log, lead, prev, 0, entries);
    assert entries[0..] == entries;
    GoodIndex(h, lead, t, prev + |entries|);
  }

  /** An append in a run, whenever it arrives. It is taken if and only if it is not outdated and the
      follower has the leader's term at the previous place. Then the log stays as it is if it has
      all the entries already, and else is cut there and extended by them; and the commit index,
      if the leader's is further on, becomes the lesser of the leader's and the new log's last
      index when an entry was new, and of the leader's and the previous index when none was. */
  lemma AppendExact(n: nat, run: seq<Cluster>, k: nat, i: nat, args: AppendArgs)
    requires Visits(n, run, k, i) && AppendMessage(i, args) in run[k].appends
    ensures var p := At(n, run, k, i).peer;
      && |p.log| > 0 && args.prevLogIndex >= 0
      && var (q, reply) := AppendEntries(p, args);
         && (reply.success <==>
               args.term >= p.term && args.prevLogIndex < |p.log| && p.log[args.prevLogIndex].term == args.prevLogTerm)
         && (reply.success ==>
               && q.log == (if AlreadyHeld(p.log, args) then p.log else p.log[..args.prevLogIndex + 1] + args.entries)
               && q.commitIndex ==
                    if args.leaderCommit <= p.commitIndex then p.commitIndex
                    else if AlreadyHeld(p.log, args) then Min(args.leaderCommit, args.prevLogIndex)
                    else Min(args.leaderCommit, |q.log| - 1))
  {
    LogShape(n, run, k, i);
    AtLog(n, run, k, i);
    MessageAt(n, run, k, i, args);
    LeadersHold(n, run, k);
    hide IsRun, HistoryOk, AllHeld, GoodLog;
    AppendExactly(run[k].history, n, At(n, run, k, i).peer, args);
  }

  lemma AppendExactly(h: History, n: nat, p: Peer, args: AppendArgs)
    requires HistoryOk(h, n) && GoodLog(h, p.log, p.term) && |p.log| > 0 && AppendOk(h, n, args)
    ensures args.prevLogIndex >= 0
    ensures var (q, reply) := AppendEntries(p, args);
      && (reply.success <==>
            args.term >= p.term && args.prevLogIndex < |p.log| && p.log[args.prevLogIndex].term == args.prevLogTerm)
      && (reply.success ==>
            && q.log == (if AlreadyHeld(p.log, args) then p.log else p.log[..args.prevLogIndex + 1] + args.entries)
            && q.commitIndex ==
                 if args.leaderCommit <= p.commitIndex then p.commitIndex
                 else if AlreadyHeld(p.log, args) then Min(args.leaderCommit, args.prevLogIndex)
                 else Min(args.leaderCommit, |q.log| - 1))
  {
    hide AppendEntries, HistoryOk, GoodLog, AppendOk, AlreadyHeld;
    TakenIffFits(h, n, p, args);
    if AppendEntries(p, args).1.success {
      TakenResult(h, n, p, args);
    }
  }

  lemma TakenResult(h: History, n: nat, p: Peer, args: AppendArgs)
    requires HistoryOk(h, n) && GoodLog(h, p.log, p.term) && |p.log| > 0 && AppendOk(h, n, args) && AppendEntries(p, args).1.success
    ensures var q := AppendEntries(p, args).0;
      && args.prevLogIndex >= 0 && args.prevLogIndex < |p.log|
      && q.log == (if AlreadyHeld(p.log, args) then p.log else p.log[..args.prevLogIndex + 1] + args.entries)
      && q.commitIndex ==
           if args.leaderCommit <= p.commitIndex then p.commitIndex
           else if AlreadyHeld(p.log, args) then Min(args.leaderCommit, args.prevLogIndex)
           else Min(args.leaderCommit, |q.log| - 1)
  {
    hide AppendEntries, HistoryOk, GoodLog, AppendOk, AlreadyHeld, Has, Accept, Judge, LogTakenOver;
    var f := BecomeFollower(p, args.term, args.leader);
    SuccessIs(p, args);
    AppendTakesOver(p, args);
    assert CommitTakenOver(p, args, AppendEntries(p, args).0.commitIndex);
    hide TookOver;
    Raised(h, p.log, p.term, args.term);
    assert Takes(h, n, f, args);
    hide Takes;
    TakenExactly(h, n, f, args);
    HeldIffHas(h, n, f, args);
  }

  lemma SuccessIs(p: Peer, args: AppendArgs)
    requires |p.log| > 0 && AppendEntries(p, args).1.success
    ensures args.term >= p.term && Judge(p.log, args).Accepted?
    ensures AppendEntries(p, args).0 == Accept(BecomeFollower(p, args.term, args.leader), args)
  {
    hide Accept, Judge;
  }

  lemma Raised(h: History, log: seq<LogEntry>, t: int, u: int)
    requires GoodLog(h, log, t) && t <= u
    ensures GoodLog(h, log, u)
  {
    hide EntryOk;
  }

  lemma TakenIffFits(h: History, n: nat, p: Peer, args: AppendArgs)
    requires HistoryOk(h, n) && GoodLog(h, p.log, p.term) && |p.log| > 0 && AppendOk(h, n, args)
    ensures args.prevLogIndex >= 0
    ensures AppendEntries(p, args).1.success <==>
      args.term >= p.term && args.prevLogIndex < |p.log| && p.log[args.prevLogIndex].term == args.prevLogTerm
  {
    AppendTakenIff(p, args);
    LeaderLogGood(h, n, args.term);
    hide HistoryOk, Known, SortedUpTo, OwnTerm;
    var prev := args.prevLogIndex;
    if 0 < prev < |p.log| {
      assert EntryOk(h, p.log, prev) && p.log[0] == SENTINEL;
    }
  }

  // ---- retreat, in runs

  /** Where the run of the term at prev begins is the term's first place in the whole log. */
  lemma RunIsFirst(log: seq<LogEntry>, prev: int, x: int)
    requires Rising(log) && RunFrom(log, prev, x)
    ensures FirstOf(log, log[prev].term, x)
  {
    forall k | 0 <= k < x ensures log[k].term != log[prev].term {
      assert log[k].term <= log[x - 1].term <= log[prev].term;
    }
  }

  ghost predicate FirstOf(log: seq<LogEntry>, term: int, x: int) {
    0 <= x < |log| && log[x].term == term && forall k :: 0 <= k < x ==> log[k].term != term
  }

  /** Some entry of another term follows x before the log's last slot. */
  ghost predicate FollowedBy(log: seq<LogEntry>, x: int) {
    0 <= x < |log| && exists y :: x < y < |log| - 1 && log[y].term != log[x].term
  }

  /** Where a refused leader resumes, said of the two logs: at the follower's length if the
      follower has nothing at the previous place; at the first place of the follower's term there
      if the leader lacks that term, which is above 0; and if the leader has it, at its last place
      there, or at 0 exactly when nothing of another term follows before the last slot. */
  ghost predicate ResumesAt(lead: seq<LogEntry>, log: seq<LogEntry>, prev: nat, start: int) {
    if prev >= |log| then start == |log|
    else
      var term := log[prev].term;
      if forall k :: 0 <= k < |lead| ==> lead[k].term != term then FirstOf(log, term, start) && start > 0
      else exists x :: LastOf(lead, term, x) && start == if FollowedBy(lead, x) then x else 0
  }

  lemma RefusalResumes(h: History, n: nat, lead: seq<LogEntry>, p: Peer, args: AppendArgs, r: Resume)
    requires AppendOk(h, n, args) && lead == h.logs[args.term] && |args.entries| > 0 && p.term <= args.term
    requires GoodLog(h, lead, args.term) && GoodLog(h, p.log, p.term)
    requires !AppendEntries(p, args).1.success && Adjusted(lead, args.prevLogIndex, AppendEntries(p, args).1, r)
    ensures args.prevLogIndex >= 0 && r.From? && ResumesAt(lead, p.log, args.prevLogIndex, r.start)
  {
    RefusalLowers(h, n, lead, p, args, r);
    AppendLeaves(p, args);
    var prev, reply := args.prevLogIndex, AppendEntries(p, args).1;
    assert Rising(lead) && Rising(p.log);
    hide AppendEntries, AppendOk, RunFrom;
    if prev < |p.log| {
      var x :| RunFrom(p.log, prev, x) && reply.xTerm == p.log[x].term && reply.xIndex == p.log[x].index;
      RunIsFirst(p.log, prev, x);
      assert p.log[x].index == x && x > 0 by { RunAbove(p.log, prev, x); GoodIndex(h, p.log, p.term, x); }
      hide GoodLog;
      if !(forall k :: 0 <= k < |lead| ==> lead[k].term != reply.xTerm) {
        var y :| LastOf(lead, reply.xTerm, y) && r == From(if y + 1 < |lead| - 1 then y else 0);
        assert y + 1 < |lead| - 1 ==> lead[y + 1].term != lead[y].term;
      }
    }
  }

  lemma RunAbove(log: seq<LogEntry>, prev: int, x: int)
    requires RunFrom(log, prev, x)
    ensures 0 < x < |log| && log[x].term == log[prev].term
  {
  }

  /** And so in every run: whenever a follower refuses an append because of its log, and whenever
      afterwards the leader, still of that term, acts on it. */
  lemma BackoffExact(n: nat, run: seq<Cluster>, k: nat, l: nat, i: nat, j: nat, args: AppendArgs, r: Resume)
    requires Visits(n, run, k, i) && Visits(n, run, l, j) && k <= l
    requires AppendMessage(i, args) in run[k].appends && |args.entries| > 0
    requires At(n, run, l, j).peer.role.Leader? && At(n, run, l, j).peer.term == args.term
    requires var p := At(n, run, k, i).peer;
      |p.log| > 0 && p.term <= args.term && !AppendEntries(p, args).1.success
      && Adjusted(At(n, run, l, j).peer.log, args.prevLogIndex, AppendEntries(p, args).1, r)
    ensures args.prevLogIndex >= 0 && r.From?
    ensures ResumesAt(At(n, run, l, j).peer.log, At(n, run, k, i).peer.log, args.prevLogIndex, r.start)
  {
    AtIsOk(n, run, l, j);
    hide HistoryOk, IsRun, GoodLog, Committed, VotesOk, JobOk, CountedOk, AppendOk, AppendEntries, Adjusted, ResumesAt;
    var h, p := run[l].history, At(n, run, k, i).peer;
    MessageLater(n, run, k, l, i, args);
    MessageAt(n, run, l, i, args);
    LaterLog(n, run, k, l, i);
    assert LeaderOk(h, n, j, At(n, run, l, j).peer);
    LeaderLogGood(h, n, args.term);
    RefusalResumes(h, n, At(n, run, l, j).peer.log, p, args, r);
  }

  // ---- answers

  /** What an election's goroutine does with an answer: one of another term is dropped, a later
      term deposes, and a granted vote is counted, once for each voter. */
  lemma VoteCountedExactly(s: Server, vote: VoteAnswer)
    ensures var (d, stale) := (CountVote(s, vote), vote.args.term != s.peer.term || vote.args.term != s.ballot.term);
      && (stale ==> d == s)
      && (!stale && vote.reply.term > s.peer.term ==>
            d.peer.role == Follower && d.peer.term == vote.reply.term && d.peer.votedFor == -1 && d.peer.log == s.peer.log)
      && (!stale && vote.reply.term <= s.peer.term ==>
            d.peer == s.peer && d.ballot.term == s.ballot.term
            && forall v :: v in d.ballot.voters <==> v in s.ballot.voters || (vote.reply.granted && v == vote.voter))
  {
  }

  /** What a sender does with an answer: to entries of another term nothing, a later term deposes,
      and success is counted and moves the follower's next index past the end, never back. */
  lemma AckCountedExactly(s: Server, answer: AppendAnswer, job: Job)
    ensures var (d, entries) := (CountAck(s, answer, job), |answer.args.entries| > 0);
      && (entries && answer.args.term != s.peer.term ==> d == s)
      && (!(entries && answer.args.term != s.peer.term) && answer.reply.term > s.peer.term ==>
            d.peer.role == Follower && d.peer.term == answer.reply.term && d.peer.votedFor == -1 && d.peer.log == s.peer.log)
      && (entries && answer.args.term == s.peer.term && answer.reply.term <= s.peer.term && answer.reply.success ==>
            && (forall a :: a in d.acks <==> a in s.acks || a == (job, answer.follower))
            && (answer.follower < |s.peer.nextIndex| == |s.peer.matchedIndex| ==>
                  d.peer.nextIndex == s.peer.nextIndex[answer.follower :=
                    if s.peer.nextIndex[answer.follower] < job.end + 1 then job.end + 1 else s.peer.nextIndex[answer.follower]]))
  {
  }

  // ---- sends, in runs

  /** What a broadcast sends: everything from the start to the captured end, after the entry
      before the start, with the captured commit index and the leader's own term. */
  lemma SendExact(n: nat, run: seq<Cluster>, k: nat, i: nat, to: nat, job: Job, start: int)
    requires Visits(n, run, k, i) && CanSendEntries(At(n, run, k, i).peer, i, to, job, start)
    ensures var (p, args) := (At(n, run, k, i).peer, EntriesFor(At(n, run, k, i).peer, i, job, start));
      && args.term == p.term && args.leader == i && args.leaderCommit == job.commit
      && args.prevLogIndex == start - 1 && args.prevLogTerm == p.log[start - 1].term
      && |args.entries| == job.end - start + 1
      && forall x :: 0 <= x < |args.entries| ==> args.entries[x] == p.log[start + x] && args.entries[x].index == start + x
  {
    LogShape(n, run, k, i);
  }

  /** What a heartbeat sends: no entries, after the one before the follower's next index. */
  lemma HeartbeatExact(n: nat, run: seq<Cluster>, k: nat, i: nat, to: nat, job: Job)
    requires Visits(n, run, k, i) && CanSendHeartbeat(At(n, run, k, i).peer, i, to, job)
    ensures var (p, args) := (At(n, run, k, i).peer, HeartbeatFor(At(n, run, k, i).peer, i, to, job));
      && args.term == p.term && args.leader == i && args.leaderCommit == job.commit && args.entries == []
      && args.prevLogIndex == p.nextIndex[to] - 1 && args.prevLogTerm == p.log[args.prevLogIndex].term
  {
    LogShape(n, run, k, i);
  }
}
