/** Appending, sending and taking over entries keep the invariant. */
module RaftReplication {
  import opened RaftPeer
  import opened RaftCluster
  import opened RaftInvariant
  import opened RaftGrowth
  import opened RaftLogs
  import opened RaftKeeps
  import opened RaftVoting

  // ---- a leader takes a command

  ghost predicate Leads(h: History, n: nat, i: nat, s: Server) {
    ServerOk(h, n, i, s) && i < n && s.peer.role.Leader?
  }

  lemma LeadsLog(h: History, n: nat, i: nat, s: Server)
    requires HistoryOk(h, n) && Leads(h, n, i, s)
    ensures var t := s.peer.term;
      && t in h.elected && h.elected[t].leader == i && t in h.logs && s.peer.log == h.logs[t]
      && GoodLog(h, s.peer.log, t) && |s.peer.log| > 0 && AckOf(h, i, t) == |s.peer.log| - 1
  {
    hide GoodLog, Committed, JobOk, CountedOk, VotesOk, BallotOk, CandidacyOk, GrantOk, AckOk, AppliedOk;
    assert ElectionOk(h, n, s.peer.term);
    LogNotEmpty(h, s.peer.log, s.peer.term);
  }

  /** The leader of the term has one more entry, and has it itself. */
  ghost predicate Appended(h: History, k: History, i: nat, u: int, command: Command) {
    && u in h.logs && u in h.elected && h.elected[u].leader == i
    && AckedOnly(h, k, i, u) && AckOf(h, i, u) < AckOf(k, i, u) == |h.logs[u]|
    && k == h.(logs := h.logs[u := h.logs[u] + [LogEntry(u, |h.logs[u]|, command)]], acked := k.acked)
    && k.acked.Keys == h.acked.Keys + {(i, u)}
  }

  lemma CommandAppends(h: History, k: History, n: nat, i: nat, s: Server, command: Command)
    requires HistoryOk(h, n) && Leads(h, n, i, s) && |s.peer.log| > 0 && k == Told(h, s, n, StartCommand(i, command))
    ensures Appended(h, k, i, s.peer.term, command)
  {
    LeadsLog(h, n, i, s);
    ToldCommand(h, s, n, i, command);
    hide HistoryOk, ServerOk, GoodLog, Told;
    AckEffect(h.(logs := h.logs[s.peer.term := Start(s.peer, command).log]), i, s.peer.term, |s.peer.log|);
    AckElsewhere(h, h.(logs := h.logs[s.peer.term := Start(s.peer, command).log]), k, i, s.peer.term);
  }

  lemma ToldCommand(h: History, s: Server, n: nat, i: nat, command: Command)
    requires |s.peer.log| > 0
    ensures Told(h, s, n, StartCommand(i, command))
      == Ack(h.(logs := h.logs[s.peer.term := Start(s.peer, command).log]), i, s.peer.term, |s.peer.log|)
  {
  }

  lemma AppendedGrows(h: History, k: History, i: nat, u: int, command: Command)
    requires Appended(h, k, i, u, command)
    ensures Grows(h, k, i)
  {
    forall q, t ensures AckOf(h, q, t) <= AckOf(k, q, t) {
      assert q != i || t != u ==> AckOf(h, q, t) == AckOf(k, q, t);
    }
  }

  lemma LongerLog(h: History, k: History, log: seq<LogEntry>, t: int, command: Command)
    requires LogsGrow(h, k) && GoodLog(h, log, t) && t > 0
    requires t in k.logs && k.logs[t] == log + [LogEntry(t, |log|, command)]
    ensures GoodLog(k, k.logs[t], t)
  {
    GoodLogGrows(h, k, log, t);
    var more := k.logs[t];
    forall j: nat | j < |more| ensures EntryOk(k, more, j) {
      if j < |log| {
        assert EntryOk(k, log, j);
        assert more[..j + 1] == log[..j + 1];
      }
    }
  }

  lemma CommandHistory(h: History, k: History, n: nat, i: nat, u: int, command: Command)
    requires HistoryOk(h, n) && i < n && Appended(h, k, i, u, command)
    ensures HistoryOk(k, n)
  {
    AppendedGrows(h, k, i, u, command);
    hide ElectionOk, GoodLog, AppliedOk, AcksGrow, LogsGrow, AckedOnly, GrantOk, CandidacyOk, AckOk;
    forall t | t in k.elected ensures ElectionOk(k, n, t) {
      if t != u {
        assert AckOf(h, h.elected[t].leader, t) == AckOf(k, h.elected[t].leader, t) by { OtherAck(h, k, i, u, h.elected[t].leader, t); }
        ElectionGrows(h, k, n, i, t);
      } else {
        LongerElection(h, k, n, i, u, command);
      }
    }
    HistoryFrom(h, k, n, i, u);
  }

  lemma LongerElection(h: History, k: History, n: nat, i: nat, u: int, command: Command)
    requires Appended(h, k, i, u, command) && ElectionOk(h, n, u) && LogsGrow(h, k)
    ensures ElectionOk(k, n, u)
  {
    hide GoodLog, IsQuorum, AckedOnly;
    LongerLog(h, k, h.logs[u], u, command);
  }

  lemma AppendedFacts(h: History, k: History, i: nat, u: int, command: Command)
    requires Appended(h, k, i, u, command)
    ensures k.granted == h.granted && k.elected == h.elected && k.applied == h.applied
    ensures u in h.logs && u in k.logs && k.logs[u] == h.logs[u] + [LogEntry(u, |h.logs[u]|, command)]
  {
  }

  lemma CommandLeader(h: History, k: History, n: nat, i: nat, p: Peer, command: Command)
    requires LeaderOk(h, n, i, p) && p.role.Leader? && Appended(h, k, i, p.term, command)
    ensures LeaderOk(k, n, i, Start(p, command))
  {
    AppendedFacts(h, k, i, p.term, command);
    hide Appended;
  }

  lemma CommandVotes(h: History, k: History, i: nat, p: Peer, command: Command)
    requires VotesOk(h, i, p) && Appended(h, k, i, p.term, command)
    ensures VotesOk(k, i, Start(p, command))
  {
    AppendedFacts(h, k, i, p.term, command);
    hide Appended;
  }

  lemma CommandPeer(h: History, k: History, n: nat, i: nat, p: Peer, command: Command)
    requires PeerOk(h, n, i, p) && p.role.Leader? && Appended(h, k, i, p.term, command)
    requires HistoryOk(k, n) && LogsGrow(h, k) && AcksGrow(h, k)
    ensures PeerOk(k, n, i, Start(p, command))
  {
    hide HistoryOk, GoodLog, Committed, AcksGrow, LogsGrow, CandidateOk, VotesOk;
    var q := Start(p, command);
    CommandLeader(h, k, n, i, p, command);
    CommandVotes(h, k, i, p, command);
    hide Appended;
    assert GoodLog(k, q.log, p.term) by { LeaderLogGood(k, n, p.term); }
    CommittedGrows(h, k, n, p.term, p.term, p.commitIndex, p.log);
    CommittedExtends(k, n, p.term, p.commitIndex, p.log, q.log);
  }

  lemma LeaderLogGood(h: History, n: nat, t: int)
    requires HistoryOk(h, n) && t in h.logs
    ensures GoodLog(h, h.logs[t], t) && t in h.elected && t > 0
  {
    hide GoodLog;
    assert ElectionOk(h, n, t);
  }

  lemma CommittedExtends(h: History, n: nat, bound: int, commit: int, log: seq<LogEntry>, more: seq<LogEntry>)
    requires Committed(h, n, bound, commit, log) && log <= more
    ensures Committed(h, n, bound, commit, more)
  {
    hide Evidence;
  }

  lemma CommandServer(h: History, k: History, n: nat, i: nat, s: Server, command: Command)
    requires Leads(h, n, i, s) && Appended(h, k, i, s.peer.term, command)
    requires HistoryOk(k, n) && LogsGrow(h, k) && AcksGrow(h, k)
    ensures ServerOk(k, n, i, s.(peer := Start(s.peer, command)))
  {
    ServerPeer(h, n, i, s);
    hide HistoryOk, PeerOk, ServerOk, LogsGrow, AcksGrow;
    CommandPeer(h, k, n, i, s.peer, command);
    AppendedFacts(h, k, i, s.peer.term, command);
    hide Appended;
    ServerFrom(h, k, n, i, s, Start(s.peer, command));
  }

  /** A later leader's voters have left the term and have not seen the new entry. */
  lemma NewEntryBlocked(h: History, k: History, n: nat, terms: seq<int>, i: nat, u: int, command: Command, w: int)
    requires HistoryOk(h, n) && n == |terms| && i < n && terms[i] == u && Appended(h, k, i, u, command)
    requires w in h.elected && u < w && GrantsReached(h, terms)
    ensures Blocked(k, terms, u, |h.logs[u]|)
  {
    hide GoodLog, CandidacyOk, GrantOk, AppliedOk;
    assert ElectionOk(h, n, w);
    var q := h.elected[w].quorum;
    forall m | m in q ensures terms[m] > u && AckOf(k, m, u) < |h.logs[u]| {
      assert Grant(w, m, h.elected[w].leader) in h.granted;
      AckBelow(h, n, m, u);
    }
    assert NoneWillAck(k, terms, q, u, |h.logs[u]|);
  }

  lemma AckBelow(h: History, n: nat, m: nat, u: int)
    requires HistoryOk(h, n) && u in h.logs
    ensures AckOf(h, m, u) < |h.logs[u]|
  {
    hide GoodLog, CandidacyOk, GrantOk, AppliedOk, ElectionOk;
    if (m, u) in h.acked {
      assert AckOk(h, n, (m, u));
    }
  }

  lemma NewEntryOwn(h: History, k: History, n: nat, terms: seq<int>, i: nat, u: int, command: Command)
    requires HistoryOk(h, n) && n == |terms| && i < n && terms[i] == u && Appended(h, k, i, u, command) && GrantsReached(h, terms)
    ensures NewOwnOk(h, k, terms, terms, i)
  {
    hide HistoryOk, Blocked, GrantsReached;
    forall t, j | OwnTerm(k, t, j) && !OwnTerm(h, t, j)
      ensures terms[i] <= t && (forall q :: q != i ==> AckOf(k, q, t) < j) && (forall w :: w in k.logs && t < w ==> Blocked(k, terms, t, j))
    {
      assert t == u && j == |h.logs[u]|;
      forall q | q != i ensures AckOf(k, q, t) < j { AckBelow(h, n, q, u); }
      forall w | w in k.logs && t < w ensures Blocked(k, terms, t, j) {
        LeaderLogGood(h, n, w);
        NewEntryBlocked(h, k, n, terms, i, u, command, w);
      }
    }
  }

  lemma CommandHeld(h: History, k: History, terms: seq<int>, i: nat, p: Peer, command: Command)
    requires Appended(h, k, i, p.term, command) && p.log == h.logs[p.term] && AcksHeld(h, terms, i, p) && p.role.Leader?
    requires Frozen(h, k, terms, terms) && Grows(h, k, i)
    ensures AcksHeld(k, terms, i, Start(p, command))
  {
    hide Blocked, Frozen, AcksGrow;
    var more := Start(p, command).log;
    forall t, j | OwnTerm(k, t, j) && t < p.term + 1 && AckOf(k, i, t) >= j ensures Secure(k, terms, t, j, more) {
      if t < p.term {
        assert AckOf(h, i, t) == AckOf(k, i, t);
        assert OwnTerm(h, t, j);
        assert Secure(h, terms, t, j, p.log);
        SecureGrows(h, k, terms, terms, t, j, p.log);
        SecureExtends(k, terms, t, j, p.log, more);
      }
    }
    forall t | AckOf(k, i, t) >= 0 ensures t <= p.term {
      assert t != p.term ==> AckOf(h, i, t) == AckOf(k, i, t);
    }
  }

  lemma GrowthOf(h: History, k: History, i: nat)
    requires Grows(h, k, i)
    ensures LogsGrow(h, k) && AcksGrow(h, k)
  {
  }

  lemma StartCommandKeeps(c: Cluster, i: nat, command: Command)
    requires Inv(c) && Enabled(c, StartCommand(i, command))
    ensures Inv(Next(c, StartCommand(i, command)))
  {
    hide HistoryOk, ServerOk, MessagesOk, AcksHeld, GrantHeld, LeaderHolds, Frozen, Grows, AckedOnly, NewOwnOk, GrantsReached, GoodLog;
    var d := Next(c, StartCommand(i, command));
    var h, k, n, s := c.history, d.history, |c.servers|, c.servers[i];
    var terms := Terms(c);
    CommandAppends(h, k, n, i, s, command);
    AppendedGrows(h, k, i, s.peer.term, command);
    CommandHistory(h, k, n, i, s.peer.term, command);
    assert LogsGrow(h, k) && AcksGrow(h, k) by { GrowthOf(h, k, i); }
    CommandServer(h, k, n, i, s, command);
    LeadsLog(h, n, i, s);
    assert Terms(d) == terms;
    LeadFrozen(h, k, terms, i);
    GrantsAreReached(c);
    NewEntryOwn(h, k, n, terms, i, s.peer.term, command);
    CommandHeld(h, k, terms, i, s.peer, command);
    MessagesGrow(c, k, i);
    SameMessages(c.(history := k), d);
    assert StepOwes(h, k, terms, terms, i, d.servers[i].peer);
    hide CrossOk, StepOwes;
    StepKeeps(c, d, i);
  }

  // ---- a leader sends

  lemma JobIsKnown(h: History, n: nat, i: nat, s: Server, job: Job)
    requires Leads(h, n, i, s) && job in s.jobs
    ensures Known(h, n, job.term, job.commit)
  {
    hide PeerOk, CountedOk, BallotOk, DeliveredOk, Known;
    assert JobOk(h, n, s.peer, job);
  }

  /** A stretch of the leader's own log, labelled with its term, makes a proper append. */
  lemma StretchIsOk(h: History, n: nat, i: nat, log: seq<LogEntry>, t: int, from: nat, to: nat, commit: int)
    requires t in h.elected && h.elected[t].leader == i && t in h.logs && log == h.logs[t]
    requires 0 < from <= to <= |log| && log[from - 1].index == from - 1 && (from < to ==> log[to - 1].term == t)
    requires Known(h, n, t, commit)
    ensures AppendOk(h, n, AppendArgs(t, i, log[from - 1].index, log[from - 1].term, log[from..to], commit))
  {
    hide Known;
  }

  lemma NextIsOwn(h: History, n: nat, i: nat, s: Server, to: nat, end: int)
    requires Leads(h, n, i, s) && to < n && |s.peer.nextIndex| == n && s.peer.nextIndex[to] <= end < |s.peer.log|
    ensures 0 <= end && s.peer.log[end].term == s.peer.term
  {
    hide GoodLog, Committed, VotesOk, BallotOk, JobOk, CountedOk, DeliveredOk;
    assert LeaderOk(h, n, i, s.peer);
  }

  /** The guard on the next index makes the last entry sent one of the leader's own term. */
  lemma EntriesAreOk(h: History, n: nat, i: nat, s: Server, to: nat, job: Job, start: int)
    requires HistoryOk(h, n) && Leads(h, n, i, s) && job in s.jobs && to < n && |s.peer.nextIndex| == n
    requires CanSendEntries(s.peer, i, to, job, start)
    ensures AppendOk(h, n, EntriesFor(s.peer, i, job, start))
  {
    hide HistoryOk, Leads, Known, GoodLog, AppendOk;
    LeadsLog(h, n, i, s);
    JobIsKnown(h, n, i, s, job);
    NextIsOwn(h, n, i, s, to, job.end);
    GoodIndex(h, s.peer.log, s.peer.term, start - 1);
    StretchIsOk(h, n, i, s.peer.log, s.peer.term, start, job.end + 1, job.commit);
  }

  lemma HeartbeatIsOk(h: History, n: nat, i: nat, s: Server, to: nat, job: Job)
    requires HistoryOk(h, n) && Leads(h, n, i, s) && job in s.jobs && to < n && CanSendHeartbeat(s.peer, i, to, job)
    ensures AppendOk(h, n, HeartbeatFor(s.peer, i, to, job))
  {
    hide HistoryOk, Leads, Known, GoodLog, AppendOk;
    LeadsLog(h, n, i, s);
    JobIsKnown(h, n, i, s, job);
    var next := s.peer.nextIndex[to];
    GoodIndex(h, s.peer.log, s.peer.term, next - 1);
    StretchIsOk(h, n, i, s.peer.log, s.peer.term, next, next, job.commit);
    assert s.peer.log[next..next] == [];
  }

  lemma NextLength(h: History, n: nat, i: nat, s: Server)
    requires Leads(h, n, i, s)
    ensures |s.peer.nextIndex| == n
  {
  }

  lemma Sent(c: Cluster, d: Cluster, m: AppendMessage)
    requires MessagesOk(c) && d == c.(servers := d.servers, appends := c.appends + {m}) && |c.servers| == |d.servers|
    requires MessageOk(c.history, |c.servers|, m)
    ensures MessagesOk(d)
  {
    hide AppendOk;
  }

  lemma SendEntriesKeeps(c: Cluster, i: nat, to: nat, job: Job, start: int)
    requires Inv(c) && Enabled(c, SendEntries(i, to, job, start))
    ensures Inv(Next(c, SendEntries(i, to, job, start)))
  {
    hide HistoryOk, ServerOk, MessagesOk, CrossOk, AppendOk;
    var d := Next(c, SendEntries(i, to, job, start));
    NextLength(c.history, |c.servers|, i, c.servers[i]);
    EntriesAreOk(c.history, |c.servers|, i, c.servers[i], to, job, start);
    Sent(c, d, AppendMessage(to, EntriesFor(c.servers[i].peer, i, job, start)));
    QuietKeeps(c, d, i);
  }

  lemma SendHeartbeatKeeps(c: Cluster, i: nat, to: nat, job: Job)
    requires Inv(c) && Enabled(c, SendHeartbeat(i, to, job))
    ensures Inv(Next(c, SendHeartbeat(i, to, job)))
  {
    hide HistoryOk, ServerOk, MessagesOk, CrossOk, AppendOk;
    var d := Next(c, SendHeartbeat(i, to, job));
    HeartbeatIsOk(c.history, |c.servers|, i, c.servers[i], to, job);
    Sent(c, d, AppendMessage(to, HeartbeatFor(c.servers[i].peer, i, to, job)));
    QuietKeeps(c, d, i);
  }

  lemma CapturedServer(h: History, n: nat, i: nat, s: Server)
    requires ServerOk(h, n, i, s)
    ensures ServerOk(h, n, i, s.(jobs := s.jobs + {Job(s.peer.term, |s.peer.log| - 1, s.peer.commitIndex)}))
  {
    hide CountedOk, GoodLog, Evidence, VotesOk, LeaderOk, CandidateOk, BallotOk;
    assert Known(h, n, s.peer.term, s.peer.commitIndex) by {
      assert Committed(h, n, s.peer.term, s.peer.commitIndex, s.peer.log);
    }
    hide Known, Committed;
  }

  lemma CaptureKeeps(c: Cluster, i: nat)
    requires Inv(c) && Enabled(c, Capture(i))
    ensures Inv(Next(c, Capture(i)))
  {
    hide HistoryOk, ServerOk, MessagesOk, CrossOk;
    var d := Next(c, Capture(i));
    CapturedServer(c.history, |c.servers|, i, c.servers[i]);
    SameMessages(c, d);
    QuietKeeps(c, d, i);
  }
}
