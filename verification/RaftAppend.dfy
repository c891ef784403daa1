/** A follower taking over a leader's entries keeps the invariant. */
module RaftAppend {
  import opened RaftPeer
  import opened RaftCluster
  import opened RaftInvariant
  import opened RaftGrowth
  import opened RaftLogs
  import opened RaftKeeps
  import opened RaftVoting
  import opened RaftReplication

  /** Following the elected leader overwrites the vote, but never a vote that elected another. */
  lemma PeerFollows(h: History, n: nat, id: nat, p: Peer, t: int)
    requires HistoryOk(h, n) && PeerOk(h, n, id, p) && p.term <= t && t in h.elected
    ensures PeerOk(h, n, id, BecomeFollower(p, t, h.elected[t].leader))
  {
    hide GoodLog, Committed, LeaderOk, CandidateOk, CandidacyOk, GrantOk, AckOk, AppliedOk;
    assert ElectionOk(h, n, t);
    GoodLogRaise(h, p.log, p.term, t);
    LogsGrowRefl(h);
    CommittedGrows(h, h, n, p.term, t, p.commitIndex, p.log);
  }

  /** The append is in order and the peer takes it. */
  ghost predicate Takes(h: History, n: nat, p: Peer, args: AppendArgs) {
    && HistoryOk(h, n) && GoodLog(h, p.log, args.term) && AppendOk(h, n, args) && |p.log| > 0
    && Judge(p.log, args).Accepted?
  }

  ghost function Lead(h: History, args: AppendArgs): seq<LogEntry>
    requires args.term in h.logs
  {
    h.logs[args.term]
  }

  lemma TakenAgrees(h: History, n: nat, p: Peer, args: AppendArgs)
    requires Takes(h, n, p, args)
    ensures args.term in h.logs && GoodLog(h, p.log, args.term) && Judge(p.log, args).Accepted? && |p.log| > 0
    ensures GoodLog(h, Lead(h, args), args.term) && Agree(p.log, Lead(h, args), args.prevLogIndex) && args.prevLogIndex >= 0
    ensures StartOf(args) == args.prevLogIndex + 1 && Payload(args) == args.entries
    ensures Stretch(Lead(h, args), args.prevLogIndex, args.entries)
    ensures args.prevLogIndex + |args.entries| < |Lead(h, args)|
  {
    hide HistoryOk, GoodLog, Judge, Agree, Known, OwnTerm;
    LeaderLogGood(h, n, args.term);
    AcceptedAgrees(h, n, p.log, args.term, args);
  }

  lemma TakenIs(h: History, n: nat, p: Peer, args: AppendArgs)
    requires Takes(h, n, p, args)
    ensures args.prevLogIndex + 1 <= |p.log|
    ensures Accept(p, args).log == Overwritten(p.log, args.prevLogIndex + 1, args.entries)
    ensures var rest := args.entries[Agreement(p.log, args.prevLogIndex + 1, args.entries)..];
      Accept(p, args).commitIndex == CommitAfter(p.commitIndex, args, rest)
  {
    TakenAgrees(h, n, p, args);
    AgreeBounds(p.log, Lead(h, args), args.prevLogIndex);
    hide HistoryOk, GoodLog, Agree, AppendOk, Agreement, CommitAfter, Overwritten, Stretch;
  }

  /** What the peer has in common with the leader it keeps. */
  lemma TakenKeeps(h: History, n: nat, p: Peer, args: AppendArgs, i: int)
    requires Takes(h, n, p, args) && Agree(p.log, Lead(h, args), i)
    ensures Agree(Accept(p, args).log, Lead(h, args), i)
  {
    hide Takes, HistoryOk, GoodLog, Agree, AppendOk, Agreement, Accept, Overwritten, Judge, Stretch;
    TakenAgrees(h, n, p, args);
    TakenIs(h, n, p, args);
    OverwrittenKeeps(h, p.log, args.term, Lead(h, args), args.term, args.prevLogIndex, args.entries, i);
  }

  /** Afterwards the log is in order and agrees with the leader as far as the append went. */
  lemma TakenLog(h: History, n: nat, p: Peer, args: AppendArgs)
    requires Takes(h, n, p, args)
    ensures GoodLog(h, Accept(p, args).log, args.term)
    ensures Agree(Accept(p, args).log, Lead(h, args), args.prevLogIndex + |args.entries|)
  {
    hide Takes, HistoryOk, GoodLog, Agree, AppendOk, Agreement, Accept, Overwritten, Judge, Stretch;
    TakenAgrees(h, n, p, args);
    TakenIs(h, n, p, args);
    OverwrittenAgrees(h, p.log, args.term, Lead(h, args), args.term, args.prevLogIndex, args.entries);
    GoodPrefix(h, Lead(h, args), args.term, args.prevLogIndex + |args.entries|);
  }

  /** A commit index that moves goes no further than the leader's, nor than the append went. */
  lemma TakenCommit(h: History, n: nat, p: Peer, args: AppendArgs)
    requires Takes(h, n, p, args) && p.commitIndex >= 0
    ensures var commit := Accept(p, args).commitIndex;
      commit == p.commitIndex || (0 <= commit <= args.leaderCommit && commit <= args.prevLogIndex + |args.entries| && args.leaderCommit > 0)
  {
    hide Takes, HistoryOk, GoodLog, Agree, AppendOk, Agreement, Accept, Overwritten, Judge, Stretch;
    TakenAgrees(h, n, p, args);
    TakenIs(h, n, p, args);
    OverwrittenAgrees(h, p.log, args.term, Lead(h, args), args.term, args.prevLogIndex, args.entries);
  }

  ghost predicate AllHeld(h: History, terms: seq<int>, n: nat) {
    |terms| == n && AllLeadersHold(h, terms)
  }

  /** What the peer had committed it still has: every later leader holds it too. */
  lemma OldCommitKept(h: History, n: nat, terms: seq<int>, p: Peer, args: AppendArgs)
    requires Takes(h, n, p, args) && AllHeld(h, terms, n) && Committed(h, n, args.term, p.commitIndex, p.log)
    ensures Committed(h, n, args.term, p.commitIndex, Accept(p, args).log)
  {
    hide Takes, GoodLog, Agree, Chosen, LeaderHolds, Accept;
    TakenAgrees(h, n, p, args);
    TakenLog(h, n, p, args);
    var lead, after, commit := Lead(h, args), Accept(p, args).log, p.commitIndex;
    LogNotEmpty(h, after, args.term);
    if commit != 0 {
      var t, i :| Evidence(h, n, args.term, commit, t, i) && t in h.logs && Agree(p.log, h.logs[t], commit);
      ChosenIsHeld(h, terms, t, i, args.term);
      AgreeDown(lead, h.logs[t], i, commit);
      AgreeFlip(p.log, h.logs[t], lead, commit);
      TakenKeeps(h, n, p, args, commit);
      AgreeTrans(after, lead, h.logs[t], commit);
      AgreeBounds(after, h.logs[t], commit);
    }
  }

  lemma AgreeFlip(a: seq<LogEntry>, b: seq<LogEntry>, c: seq<LogEntry>, k: int)
    requires Agree(a, b, k) && Agree(c, b, k)
    ensures Agree(a, c, k)
  {
  }

  /** What the leader reports as committed is committed here too, as far as the append went. */
  lemma NewCommitKnown(h: History, n: nat, terms: seq<int>, p: Peer, args: AppendArgs, commit: int)
    requires Takes(h, n, p, args) && AllHeld(h, terms, n) && Known(h, n, args.term, args.leaderCommit) && args.leaderCommit > 0
    requires 0 <= commit <= args.leaderCommit && commit <= args.prevLogIndex + |args.entries|
    ensures Committed(h, n, args.term, commit, Accept(p, args).log)
  {
    hide Takes, GoodLog, Agree, Chosen, LeaderHolds, Accept;
    TakenAgrees(h, n, p, args);
    TakenLog(h, n, p, args);
    var lead, after := Lead(h, args), Accept(p, args).log;
    LogNotEmpty(h, after, args.term);
    if commit != 0 {
      var t, i :| Evidence(h, n, args.term, args.leaderCommit, t, i);
      ChosenIsHeld(h, terms, t, i, args.term);
      AgreeDown(lead, h.logs[t], i, commit);
      AgreeDown(after, lead, args.prevLogIndex + |args.entries|, commit);
      AgreeTrans(after, lead, h.logs[t], commit);
      AgreeBounds(after, h.logs[t], commit);
      assert Evidence(h, n, args.term, commit, t, i);
    }
  }

  lemma TakenCommitted(h: History, n: nat, terms: seq<int>, p: Peer, args: AppendArgs)
    requires Takes(h, n, p, args) && AllHeld(h, terms, n) && Committed(h, n, args.term, p.commitIndex, p.log)
    ensures Committed(h, n, args.term, Accept(p, args).commitIndex, Accept(p, args).log)
  {
    assert Known(h, n, args.term, args.leaderCommit) && p.commitIndex >= 0;
    hide Takes, Accept, Committed, Known, AllHeld;
    TakenCommit(h, n, p, args);
    if Accept(p, args).commitIndex == p.commitIndex {
      OldCommitKept(h, n, terms, p, args);
    } else {
      NewCommitKnown(h, n, terms, p, args, Accept(p, args).commitIndex);
    }
  }

  lemma TakenPeer(h: History, n: nat, terms: seq<int>, id: nat, p: Peer, args: AppendArgs)
    requires Takes(h, n, p, args) && AllHeld(h, terms, n) && PeerOk(h, n, id, p) && p.role.Follower? && p.term == args.term
    ensures PeerOk(h, n, id, Accept(p, args))
  {
    hide Takes, GoodLog, Committed, AllHeld;
    TakenLog(h, n, p, args);
    TakenCommitted(h, n, terms, p, args);
    AcceptShape(h, n, p, args);
    hide Accept;
  }

  lemma AcceptShape(h: History, n: nat, p: Peer, args: AppendArgs)
    requires Takes(h, n, p, args)
    ensures var q := Accept(p, args); q == p.(log := q.log, commitIndex := q.commitIndex)
  {
  }

  // ---- acknowledging

  /** The follower acknowledges the leader of the term as far as the append went. */
  ghost predicate Acknowledged(h: History, k: History, i: nat, args: AppendArgs) {
    && k == h.(acked := k.acked) && k.acked.Keys == h.acked.Keys + {(i, args.term)} && AckedOnly(h, k, i, args.term)
    && var m := args.prevLogIndex + |args.entries|;
       AckOf(k, i, args.term) == if AckOf(h, i, args.term) < m then m else AckOf(h, i, args.term)
  }

  lemma AcknowledgedGrows(h: History, k: History, i: nat, args: AppendArgs)
    requires Acknowledged(h, k, i, args)
    ensures Grows(h, k, i)
  {
    forall q, t ensures AckOf(h, q, t) <= AckOf(k, q, t) {
      assert q != i || t != args.term ==> AckOf(h, q, t) == AckOf(k, q, t);
    }
  }

  lemma AcknowledgedHistory(h: History, k: History, n: nat, i: nat, args: AppendArgs)
    requires HistoryOk(h, n) && i < n && Acknowledged(h, k, i, args) && AppendOk(h, n, args) && i != args.leader
    ensures HistoryOk(k, n)
  {
    AcknowledgedGrows(h, k, i, args);
    var u := args.term;
    AckBelow(h, n, i, u);
    hide ElectionOk, CandidacyOk, GrantOk, AckOk, AppliedOk, LogsGrow, AcksGrow, AckedOnly, GoodLog, Known, OwnTerm;
    forall t | t in k.elected ensures ElectionOk(k, n, t) {
      OtherAck(h, k, i, u, h.elected[t].leader, t);
      ElectionGrows(h, k, n, i, t);
    }
    assert 0 <= AckOf(k, i, u) < |k.logs[u]|;
    HistoryFrom(h, k, n, i, u);
  }

  /** An entry the peer acknowledged earlier survives the append, unless it is lost anyway. */
  lemma OldAckHeld(h: History, n: nat, terms: seq<int>, p: Peer, args: AppendArgs, t: int, j: int)
    requires Takes(h, n, p, args) && AllHeld(h, terms, n) && OwnTerm(h, t, j) && t <= args.term
    requires Secure(h, terms, t, j, p.log)
    ensures Secure(h, terms, t, j, Accept(p, args).log)
  {
    hide Takes, Agree, Blocked, Accept, GoodLog;
    TakenAgrees(h, n, p, args);
    var lead, after := Lead(h, args), Accept(p, args).log;
    if Agree(p.log, h.logs[t], j) && !Blocked(h, terms, t, j) {
      if t < args.term {
        assert LeaderHolds(h, terms, args.term);
        assert Secure(h, terms, t, j, lead);
        AgreeFlip(p.log, h.logs[t], lead, j);
      }
      TakenKeeps(h, n, p, args, j);
      if t < args.term {
        AgreeTrans(after, lead, h.logs[t], j);
      }
    }
  }

  lemma TakenOne(h: History, n: nat, terms: seq<int>, p: Peer, args: AppendArgs, t: int, j: int)
    requires Takes(h, n, p, args) && AllHeld(h, terms, n) && OwnTerm(h, t, j) && t <= args.term
    requires (t == args.term && j <= args.prevLogIndex + |args.entries|) || Secure(h, terms, t, j, p.log)
    ensures Secure(h, terms, t, j, Accept(p, args).log)
  {
    hide Takes, Agree, Secure, Accept, GoodLog, AllHeld;
    if t == args.term && j <= args.prevLogIndex + |args.entries| {
      TakenAgrees(h, n, p, args);
      TakenLog(h, n, p, args);
      AgreeDown(Accept(p, args).log, Lead(h, args), args.prevLogIndex + |args.entries|, j);
      AgreeIsSecure(h, terms, t, j, Accept(p, args).log);
    } else {
      OldAckHeld(h, n, terms, p, args, t, j);
    }
  }

  /** The peer holds what it acknowledged before, and what it acknowledges now. */
  lemma AcknowledgedBefore(h: History, k: History, terms: seq<int>, i: nat, was: Peer, args: AppendArgs, t: int, j: int)
    requires Acknowledged(h, k, i, args) && AcksHeld(h, terms, i, was)
    requires OwnTerm(k, t, j) && AckOf(k, i, t) >= j
    ensures OwnTerm(h, t, j) && t <= if was.term < args.term then args.term else was.term
    ensures (t == args.term && j <= args.prevLogIndex + |args.entries|) || Secure(h, terms, t, j, was.log)
  {
    hide Secure;
    assert t != args.term ==> AckOf(h, i, t) == AckOf(k, i, t);
  }

  lemma TakenHolds(h: History, k: History, n: nat, terms: seq<int>, later: seq<int>, i: nat, was: Peer, p: Peer, args: AppendArgs, after: seq<LogEntry>)
    requires Takes(h, n, p, args) && AllHeld(h, terms, n) && Acknowledged(h, k, i, args) && after == Accept(p, args).log
    requires Frozen(h, k, terms, later) && AcksHeld(h, terms, i, was) && was.term <= args.term && p.log == was.log
    requires LogsGrow(h, k)
    ensures HoldsAcked(k, later, i, args.term + 1, after)
  {
    hide Takes, Agree, Secure, Accept, AllHeld, Frozen, LogsGrow, Acknowledged, OwnTerm, AcksHeld;
    forall t, j | OwnTerm(k, t, j) && t < args.term + 1 && AckOf(k, i, t) >= j ensures Secure(k, later, t, j, after) {
      AcknowledgedBefore(h, k, terms, i, was, args, t, j);
      TakenOne(h, n, terms, p, args, t, j);
      SecureGrows(h, k, terms, later, t, j, after);
    }
  }

  lemma TakenHeld(h: History, k: History, n: nat, terms: seq<int>, later: seq<int>, i: nat, was: Peer, p: Peer, args: AppendArgs)
    requires Takes(h, n, p, args) && AllHeld(h, terms, n) && Acknowledged(h, k, i, args)
    requires Frozen(h, k, terms, later) && AcksHeld(h, terms, i, was) && was.term <= args.term && p.log == was.log && p.term == args.term
    requires LogsGrow(h, k)
    ensures AcksHeld(k, later, i, Accept(p, args))
  {
    hide Takes, Agree, Accept, AllHeld, Frozen, LogsGrow, Acknowledged, OwnTerm, HoldsAcked, Judge;
    TakenAgrees(h, n, p, args);
    AcceptShape(h, n, p, args);
    TakenHolds(h, k, n, terms, later, i, was, p, args, Accept(p, args).log);
    forall t | AckOf(k, i, t) >= 0 ensures t <= args.term {
      assert t != args.term ==> AckOf(h, i, t) == AckOf(k, i, t) by { AckedElsewhere(h, k, i, args, t); }
    }
  }

  lemma AckedElsewhere(h: History, k: History, i: nat, args: AppendArgs, t: int)
    requires Acknowledged(h, k, i, args)
    ensures t != args.term ==> AckOf(h, i, t) == AckOf(k, i, t)
  {
  }

  lemma AgreeIsSecure(h: History, terms: seq<int>, t: int, j: int, log: seq<LogEntry>)
    requires t in h.logs && Agree(log, h.logs[t], j)
    ensures Secure(h, terms, t, j, log)
  {
  }

  // ---- the step

  lemma MessageIsOk(c: Cluster, i: nat, args: AppendArgs)
    requires MessagesOk(c) && AppendMessage(i, args) in c.appends
    ensures AppendOk(c.history, |c.servers|, args) && i != args.leader && i < |c.servers|
  {
    hide AppendOk;
    assert MessageOk(c.history, |c.servers|, AppendMessage(i, args));
  }

  lemma AppendAnswered(c: Cluster, d: Cluster, a: AppendAnswer)
    requires MessagesOk(c) && d == c.(servers := d.servers, appendAnswers := c.appendAnswers + {a}) && |c.servers| == |d.servers|
    requires AppendAnswerOk(c.history, |c.servers|, a)
    ensures MessagesOk(d)
  {
    hide AppendOk, AckOf;
  }

  /** A message of an old term, or one that does not fit the log. */
  lemma TurnedDownKeeps(c: Cluster, i: nat, args: AppendArgs)
    requires Inv(c) && Enabled(c, HandleAppend(i, args)) && !AppendEntries(c.servers[i].peer, args).1.success
    ensures Inv(Next(c, HandleAppend(i, args)))
  {
    hide HistoryOk, ServerOk, MessagesOk, CrossOk, AppendOk, Judge;
    var d := Next(c, HandleAppend(i, args));
    var h, n, s := c.history, |c.servers|, c.servers[i];
    MessageIsOk(c, i, args);
    if args.term >= s.peer.term {
      FollowedServer(h, n, i, s, args);
    }
    AppendAnswered(c, d, AppendAnswer(i, args, AppendEntries(s.peer, args).1));
    QuietKeeps(c, d, i);
  }

  lemma FollowedServer(h: History, n: nat, i: nat, s: Server, args: AppendArgs)
    requires HistoryOk(h, n) && ServerOk(h, n, i, s) && AppendOk(h, n, args) && s.peer.term <= args.term
    ensures ServerOk(h, n, i, s.(peer := BecomeFollower(s.peer, args.term, args.leader)))
    ensures PeerOk(h, n, i, BecomeFollower(s.peer, args.term, args.leader))
  {
    hide HistoryOk, PeerOk, Known, Stretch, OwnTerm;
    ServerPeer(h, n, i, s);
    LogsGrowRefl(h);
    PeerFollows(h, n, i, s.peer, args.term);
    hide ServerOk;
    ServerFrom(h, h, n, i, s, BecomeFollower(s.peer, args.term, args.leader));
  }

  ghost predicate Obeys(h: History, n: nat, i: nat, s: Server, args: AppendArgs) {
    && HistoryOk(h, n) && ServerOk(h, n, i, s) && AppendOk(h, n, args) && i != args.leader && i < n && |s.peer.log| > 0
    && s.peer.term <= args.term && Judge(s.peer.log, args).Accepted?
  }

  ghost function Obedient(p: Peer, args: AppendArgs): Peer { BecomeFollower(p, args.term, args.leader) }

  lemma ObeysTakes(h: History, n: nat, i: nat, s: Server, args: AppendArgs)
    requires Obeys(h, n, i, s, args)
    ensures Takes(h, n, Obedient(s.peer, args), args) && PeerOk(h, n, i, Obedient(s.peer, args))
  {
    hide HistoryOk, ServerOk, PeerOk, AppendOk, Judge;
    FollowedServer(h, n, i, s, args);
    PeerLog(h, n, i, Obedient(s.peer, args));
  }

  lemma ObedientServer(h: History, k: History, n: nat, terms: seq<int>, i: nat, s: Server, args: AppendArgs)
    requires Obeys(h, n, i, s, args) && AllHeld(h, terms, n) && Acknowledged(h, k, i, args)
    requires Takes(h, n, Obedient(s.peer, args), args)
    ensures ServerOk(k, n, i, s.(peer := Accept(Obedient(s.peer, args), args)))
  {
    var q := Obedient(s.peer, args);
    AcknowledgedGrows(h, k, i, args);
    GrowthOf(h, k, i);
    ObeysTakes(h, n, i, s, args);
    AcceptShape(h, n, q, args);
    hide Takes, AllHeld, Accept, PeerOk, HistoryOk, AppendOk, LogsGrow, AcksGrow, ServerOk;
    TakenPeer(h, n, terms, i, q, args);
    assert PeerOk(k, n, i, Accept(q, args)) by { FollowerGrows(h, k, n, i, Accept(q, args)); }
    ServerFrom(h, k, n, i, s, Accept(q, args));
  }

  lemma FollowerGrows(h: History, k: History, n: nat, i: nat, p: Peer)
    requires PeerOk(h, n, i, p) && p.role.Follower? && LogsGrow(h, k) && AcksGrow(h, k) && k == h.(acked := k.acked)
    ensures PeerOk(k, n, i, p)
  {
    hide GoodLog, Committed, AcksGrow, LogsGrow;
    GoodLogGrows(h, k, p.log, p.term);
    CommittedGrows(h, k, n, p.term, p.term, p.commitIndex, p.log);
  }

  lemma AcknowledgedFrozen(c: Cluster, d: Cluster, i: nat, args: AppendArgs)
    requires Alone(c, d, i) && Acknowledged(c.history, d.history, i, args)
    requires c.servers[i].peer.term <= args.term == d.servers[i].peer.term
    ensures Frozen(c.history, d.history, Terms(c), Terms(d))
  {
    hide Acknowledged;
    var h, k := c.history, d.history;
    forall q: nat, t | q < |c.servers| && Terms(c)[q] > t ensures AckOf(h, q, t) == AckOf(k, q, t) {
      assert AckedOnly(h, k, i, args.term) by { OnlyOne(h, k, i, args); }
    }
  }

  lemma OnlyOne(h: History, k: History, i: nat, args: AppendArgs)
    requires Acknowledged(h, k, i, args)
    ensures AckedOnly(h, k, i, args.term)
  {
  }

  lemma ObedientOwes(h: History, k: History, n: nat, terms: seq<int>, later: seq<int>, i: nat, s: Server, args: AppendArgs)
    requires Takes(h, n, Obedient(s.peer, args), args) && AllHeld(h, terms, n) && Acknowledged(h, k, i, args)
    requires Frozen(h, k, terms, later) && AcksHeld(h, terms, i, s.peer) && s.peer.term <= args.term && i < n
    ensures StepOwes(h, k, terms, later, i, Accept(Obedient(s.peer, args), args))
  {
    hide Takes, AcksHeld, Frozen, LogsGrow, AcksGrow, Accept, AllHeld, Acknowledged, Grows, LeaderHolds, GrantHeld, NewOwnOk;
    AcknowledgedGrows(h, k, i, args);
    GrowthOf(h, k, i);
    TakenHeld(h, k, n, terms, later, i, s.peer, Obedient(s.peer, args), args);
    SameLogsOwe(h, k, terms, later, i, args);
    assert n == |terms| by { HeldLength(h, terms, n); }
  }

  lemma HeldLength(h: History, terms: seq<int>, n: nat)
    requires AllHeld(h, terms, n)
    ensures |terms| == n
  {
  }

  lemma SameLogsOwe(h: History, k: History, terms: seq<int>, later: seq<int>, i: nat, args: AppendArgs)
    requires Acknowledged(h, k, i, args)
    ensures k.granted == h.granted && k.logs == h.logs
    ensures i < |terms| ==> NewOwnOk(h, k, terms, later, i)
  {
    hide AckOf, AckedOnly;
  }

  lemma ToldAppend(h: History, s: Server, n: nat, i: nat, args: AppendArgs)
    requires |s.peer.log| > 0 && AppendEntries(s.peer, args).1.success
    ensures Acknowledged(h, Told(h, s, n, HandleAppend(i, args)), i, args)
    ensures s.peer.term <= args.term && Judge(s.peer.log, args).Accepted?
    ensures AppendEntries(s.peer, args).0 == Accept(Obedient(s.peer, args), args)
  {
    hide Accept, Judge;
    AckEffect(h, i, args.term, args.prevLogIndex + |args.entries|);
  }

  lemma TakenUpKeeps(c: Cluster, i: nat, args: AppendArgs)
    requires Inv(c) && Enabled(c, HandleAppend(i, args)) && AppendEntries(c.servers[i].peer, args).1.success
    ensures Inv(Next(c, HandleAppend(i, args)))
  {
    hide HistoryOk, ServerOk, MessagesOk, AcksHeld, GrantHeld, LeaderHolds, StepOwes, Frozen, Grows, AppendOk, Acknowledged, Takes, Accept, Judge;
    var d := Next(c, HandleAppend(i, args));
    var h, k, n, s := c.history, d.history, |c.servers|, c.servers[i];
    MessageIsOk(c, i, args);
    ToldAppend(h, s, n, i, args);
    ObeysTakes(h, n, i, s, args);
    AcceptShape(h, n, Obedient(s.peer, args), args);
    ObedientServer(h, k, n, Terms(c), i, s, args);
    AcknowledgedHistory(h, k, n, i, args);
    AcknowledgedGrows(h, k, i, args);
    AcknowledgedFrozen(c, d, i, args);
    ObedientOwes(h, k, n, Terms(c), Terms(d), i, s, args);
    MessagesGrow(c, k, i);
    AppendGrows(h, k, n, i, args);
    assert AckOf(k, i, args.term) >= args.prevLogIndex + |args.entries| by { AcknowledgedEnough(h, k, i, args); }
    hide AppendEntries, Told;
    AppendAnswered(c.(history := k), d, AppendAnswer(i, args, AppendEntries(s.peer, args).1));
    hide CrossOk;
    StepKeeps(c, d, i);
  }

  lemma AcknowledgedEnough(h: History, k: History, i: nat, args: AppendArgs)
    requires Acknowledged(h, k, i, args)
    ensures AckOf(k, i, args.term) >= args.prevLogIndex + |args.entries|
  {
  }

  lemma HandleAppendKeeps(c: Cluster, i: nat, args: AppendArgs)
    requires Inv(c) && Enabled(c, HandleAppend(i, args))
    ensures Inv(Next(c, HandleAppend(i, args)))
  {
    hide HistoryOk, ServerOk, MessagesOk, CrossOk;
    if AppendEntries(c.servers[i].peer, args).1.success {
      TakenUpKeeps(c, i, args);
    } else {
      TurnedDownKeeps(c, i, args);
    }
  }
}
