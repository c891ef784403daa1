/** Counting acknowledgements, committing, delivering and restarting keep the invariant. */
module RaftCommit {
  import opened RaftPeer
  import opened RaftCluster
  import opened RaftInvariant
  import opened RaftGrowth
  import opened RaftLogs
  import opened RaftKeeps
  import opened RaftVoting
  import opened RaftReplication

  lemma MatchedPeer(h: History, n: nat, i: nat, p: Peer, follower: nat, end: int)
    requires PeerOk(h, n, i, p) && OwnTerm(h, p.term, end)
    ensures PeerOk(h, n, i, Matched(p, follower, end))
  {
    hide GoodLog, Committed, LeaderOk, OwnTerm;
    if p.role.Leader? {
      MatchedLeader(h, n, i, p, follower, end);
    }
  }

  lemma MatchedLeader(h: History, n: nat, i: nat, p: Peer, follower: nat, end: int)
    requires LeaderOk(h, n, i, p) && OwnTerm(h, p.term, end)
    ensures LeaderOk(h, n, i, Matched(p, follower, end))
  {
    var q := Matched(p, follower, end);
    forall m, k | 0 <= m < n && q.nextIndex[m] <= k < |q.log| ensures q.log[k].term == q.term {
      assert p.nextIndex[m] <= k;
    }
  }

  /** What an answer counts for: the follower has the entries, up to one of the job's term. */
  lemma AnswerCounts(c: Cluster, i: nat, answer: AppendAnswer, job: Job)
    requires MessagesOk(c) && answer in c.appendAnswers && answer.args.leader == i && Concerns(job, answer.args)
    requires answer.reply.success && |answer.args.entries| > 0
    ensures CountedOk(c.history, |c.servers|, i, (job, answer.follower))
  {
    hide Known, Stretch, OwnTerm, VoteRequestOk, VoteAnswerOk, MessageOk;
    assert AppendAnswerOk(c.history, |c.servers|, answer);
  }

  lemma CountedServer(h: History, n: nat, i: nat, s: Server, answer: AppendAnswer, job: Job)
    requires ServerOk(h, n, i, s) && CountedOk(h, n, i, (job, answer.follower)) && job.term == s.peer.term
    ensures ServerOk(h, n, i, s.(peer := Matched(s.peer, answer.follower, job.end), acks := s.acks + {(job, answer.follower)}))
  {
    LogsGrowRefl(h);
    ServerPeer(h, n, i, s);
    var q := Matched(s.peer, answer.follower, job.end);
    assert OwnTerm(h, s.peer.term, job.end);
    hide ServerOk, PeerOk;
    MatchedPeer(h, n, i, s.peer, answer.follower, job.end);
    ServerFrom(h, h, n, i, s, q);
    AckAdded(h, n, i, s.(peer := q), (job, answer.follower));
  }

  lemma AckAdded(h: History, n: nat, i: nat, s: Server, ack: (Job, nat))
    requires ServerOk(h, n, i, s) && CountedOk(h, n, i, ack)
    ensures ServerOk(h, n, i, s.(acks := s.acks + {ack}))
  {
    hide PeerOk, BallotOk, JobOk, CountedOk;
  }

  lemma ReceiveAppendKeeps(c: Cluster, i: nat, answer: AppendAnswer, job: Job)
    requires Inv(c) && Enabled(c, ReceiveAppend(i, answer, job))
    ensures Inv(Next(c, ReceiveAppend(i, answer, job)))
  {
    hide HistoryOk, ServerOk, MessagesOk, CrossOk, CountedOk;
    var d := Next(c, ReceiveAppend(i, answer, job));
    var h, n, s := c.history, |c.servers|, c.servers[i];
    if |answer.args.entries| > 0 && answer.args.term != s.peer.term {
    } else if answer.reply.term > s.peer.term {
      Deposed(h, n, i, s, answer.reply.term);
    } else if |answer.args.entries| > 0 && answer.reply.success {
      AnswerCounts(c, i, answer, job);
      CountedServer(h, n, i, s, answer, job);
    }
    SameMessages(c, d);
    QuietKeeps(c, d, i);
  }

  /** Acknowledgements of enough others and the leader's own make an entry of its term chosen. */
  lemma CountIsChosen(h: History, n: nat, i: nat, s: Server, job: Job)
    requires HistoryOk(h, n) && Leads(h, n, i, s) && CanCommit(s, job, n)
    ensures Chosen(h, n, s.peer.term, job.end)
  {
    LeadsLog(h, n, i, s);
    hide HistoryOk, PeerOk, BallotOk, JobOk, DeliveredOk, GoodLog;
    var others := Ackers(s, job);
    forall v | v in others ensures v < n && v != i && AckOf(h, v, job.term) >= job.end && OwnTerm(h, job.term, job.end) {
      assert (job, v) in s.acks;
      assert CountedOk(h, n, i, (job, v));
    }
    var v :| v in others;
    EnoughIsQuorum(others, i, n);
    assert AllAcked(h, others + {i}, job.term, job.end);
  }

  lemma CommittedServer(h: History, n: nat, i: nat, s: Server, job: Job)
    requires HistoryOk(h, n) && Leads(h, n, i, s) && CanCommit(s, job, n)
    ensures ServerOk(h, n, i, s.(peer := s.peer.(commitIndex := job.end)))
  {
    ServerPeer(h, n, i, s);
    hide HistoryOk, PeerOk, ServerOk;
    CountIsChosen(h, n, i, s, job);
    LeadsLog(h, n, i, s);
    CommittedPeer(h, n, i, s.peer, job.end);
    LogsGrowRefl(h);
    ServerFrom(h, h, n, i, s, s.peer.(commitIndex := job.end));
  }

  lemma CommittedPeer(h: History, n: nat, i: nat, p: Peer, end: int)
    requires PeerOk(h, n, i, p) && p.term in h.logs && p.log == h.logs[p.term] && Chosen(h, n, p.term, end)
    ensures PeerOk(h, n, i, p.(commitIndex := end))
  {
    hide GoodLog, Chosen;
    ChosenOwn(h, n, p.term, end);
    assert Evidence(h, n, p.term, end, p.term, end);
  }

  lemma AdvanceCommitKeeps(c: Cluster, i: nat, job: Job)
    requires Inv(c) && Enabled(c, AdvanceCommit(i, job))
    ensures Inv(Next(c, AdvanceCommit(i, job)))
  {
    hide HistoryOk, ServerOk, MessagesOk, CrossOk;
    var d := Next(c, AdvanceCommit(i, job));
    CommittedServer(c.history, |c.servers|, i, c.servers[i], job);
    SameMessages(c, d);
    QuietKeeps(c, d, i);
  }

  lemma RestartedServer(h: History, n: nat, i: nat, s: Server)
    requires ServerOk(h, n, i, s)
    ensures ServerOk(h, n, i, FRESH_SERVER.(peer := Restart(s.peer)))
  {
    hide EntryOk, SortedUpTo, JobOk, CountedOk, LeaderOk, CandidateOk, Evidence;
  }

  lemma CrashKeeps(c: Cluster, i: nat)
    requires Inv(c) && Enabled(c, Crash(i))
    ensures Inv(Next(c, Crash(i)))
  {
    hide HistoryOk, ServerOk, MessagesOk, CrossOk;
    var d := Next(c, Crash(i));
    RestartedServer(c.history, |c.servers|, i, c.servers[i]);
    SameMessages(c, d);
    QuietKeeps(c, d, i);
  }

  // ---- delivering

  ghost function Delivery(i: nat, p: Peer): Applied
    requires 0 <= p.lastApplied < |p.log| - 1
  {
    Applied(i, p.log[p.lastApplied + 1].index, p.log[p.lastApplied + 1].command)
  }

  lemma DeliveryOk(h: History, n: nat, i: nat, p: Peer)
    requires PeerOk(h, n, i, p) && 0 <= p.lastApplied < p.commitIndex < |p.log|
    ensures AppliedOk(h, n, Delivery(i, p)) && Delivery(i, p).index == p.lastApplied + 1
  {
    hide GoodLog, VotesOk, LeaderOk, CandidateOk, Chosen;
    var at := p.lastApplied + 1;
    GoodIndex(h, p.log, p.term, at);
    var t, j :| Evidence(h, n, p.term, p.commitIndex, t, j) && t in h.logs && Agree(p.log, h.logs[t], p.commitIndex);
    ChosenOwn(h, n, t, j);
    AgreeDown(p.log, h.logs[t], p.commitIndex, at);
    assert Chosen(h, n, t, j) && at <= j && h.logs[t][at].command == p.log[at].command;
  }

  /** Only the deliveries differ. */
  ghost predicate OnlyApplied(h: History, k: History, a: Applied) {
    k == h.(applied := h.applied + {a})
  }

  lemma OnlyAppliedGrows(h: History, k: History, a: Applied, i: nat)
    requires OnlyApplied(h, k, a)
    ensures Grows(h, k, i) && LogsGrow(h, k) && AcksGrow(h, k) && LogsGrow(k, h) && AcksGrow(k, h)
  {
  }

  lemma AppliedHistory(h: History, k: History, n: nat, a: Applied)
    requires HistoryOk(h, n) && OnlyApplied(h, k, a) && AppliedOk(h, n, a)
    ensures HistoryOk(k, n)
  {
    hide LogsGrow, AcksGrow, AppliedOk, ElectionOk, CandidacyOk, GrantOk, AckOk, Grows, OnlyApplied;
    OnlyAppliedGrows(h, k, a, 0);
    OnlyAppliedFacts(h, k, a);
    AppliedElections(h, k, n, a);
    forall c | c in k.candidacies ensures CandidacyOk(k, c) { CandidacyGrows(h, k, c); }
    forall b | b in k.applied ensures AppliedOk(k, n, b) { AppliedGrows(h, k, n, b); }
    forall g | g in k.granted ensures GrantOk(k, n, g) { GrantStays(h, k, n, g); }
    forall b | b in k.acked ensures AckOk(k, n, b) { SameAckOk(h, k, n, b); }
  }

  lemma AppliedElections(h: History, k: History, n: nat, a: Applied)
    requires HistoryOk(h, n) && OnlyApplied(h, k, a)
    ensures forall t :: t in k.elected ==> ElectionOk(k, n, t)
  {
    OnlyAppliedGrows(h, k, a, 0);
    hide LogsGrow, AcksGrow, AppliedOk, ElectionOk, CandidacyOk, GrantOk, AckOk, Grows;
    forall t | t in k.elected ensures ElectionOk(k, n, t) {
      assert ElectionOk(h, n, t);
      assert t in h.logs;
      ElectionGrows(h, k, n, 0, t);
    }
  }

  lemma OnlyAppliedFacts(h: History, k: History, a: Applied)
    requires OnlyApplied(h, k, a)
    ensures k.granted == h.granted && k.elected == h.elected && k.logs == h.logs && k.candidacies == h.candidacies
    ensures k.acked == h.acked && k.applied == h.applied + {a}
  {
  }

  lemma SameAckOk(h: History, k: History, n: nat, a: (nat, int))
    requires h.acked == k.acked && h.logs == k.logs && a in h.acked && AckOk(h, n, a)
    ensures AckOk(k, n, a)
  {
  }

  lemma DeliveredPeer(h: History, k: History, n: nat, i: nat, p: Peer, a: Applied)
    requires PeerOk(h, n, i, p) && OnlyApplied(h, k, a)
    ensures PeerOk(k, n, i, p.(lastApplied := p.lastApplied + 1))
  {
    OnlyAppliedGrows(h, k, a, i);
    hide GoodLog, Committed, LogsGrow, AcksGrow;
    GoodLogGrows(h, k, p.log, p.term);
    CommittedGrows(h, k, n, p.term, p.term, p.commitIndex, p.log);
  }

  lemma DeliveredServer(h: History, k: History, n: nat, i: nat, s: Server)
    requires ServerOk(h, n, i, s) && 0 <= s.peer.lastApplied < s.peer.commitIndex < |s.peer.log|
    requires OnlyApplied(h, k, Delivery(i, s.peer)) && Delivery(i, s.peer).index == s.peer.lastApplied + 1
    ensures ServerOk(k, n, i, Moved(s, n, Deliver(i)))
  {
    ServerPeer(h, n, i, s);
    OnlyAppliedGrows(h, k, Delivery(i, s.peer), i);
    DeliveredPeer(h, k, n, i, s.peer, Delivery(i, s.peer));
    hide PeerOk, Known, CountedOk, LogsGrow, AcksGrow;
    var q := s.peer.(lastApplied := s.peer.lastApplied + 1);
    forall j | j in s.jobs ensures JobOk(k, n, q, j) {
      assert JobOk(h, n, s.peer, j);
      JobGrows(h, k, n, s.peer, j);
    }
    forall a | a in s.acks ensures CountedOk(k, n, i, a) {
      CountedGrows(h, k, n, i, a);
    }
  }

  lemma DeliverOwes(h: History, k: History, terms: seq<int>, i: nat, p: Peer, q: Peer, a: Applied)
    requires OnlyApplied(h, k, a) && i < |terms| && AcksHeld(h, terms, i, p) && q.log == p.log && q.term == p.term
    ensures Frozen(h, k, terms, terms) && StepOwes(h, k, terms, terms, i, q)
  {
    OnlyAppliedGrows(h, k, a, i);
    hide Secure, LogsGrow, AcksGrow, LeaderHolds, GrantHeld;
    forall m, t ensures AckOf(h, m, t) == AckOf(k, m, t) { }
    forall t, j | OwnTerm(k, t, j) && t < q.term + 1 && AckOf(k, i, t) >= j ensures Secure(k, terms, t, j, q.log) {
      assert OwnTerm(h, t, j);
      assert Secure(h, terms, t, j, p.log);
      SecureGrows(h, k, terms, terms, t, j, p.log);
    }
  }

  lemma DeliverKeeps(c: Cluster, i: nat)
    requires Inv(c) && Enabled(c, Deliver(i))
    ensures Inv(Next(c, Deliver(i)))
  {
    hide HistoryOk, ServerOk, MessagesOk, AcksHeld, GrantHeld, LeaderHolds, StepOwes, Frozen, Grows, AppliedOk, OnlyApplied;
    var d := Next(c, Deliver(i));
    var h, k, n, s := c.history, d.history, |c.servers|, c.servers[i];
    var a := Delivery(i, s.peer);
    assert OnlyApplied(h, k, a) by { ToldDelivery(h, s, n, i); }
    ServerPeer(h, n, i, s);
    DeliveryOk(h, n, i, s.peer);
    hide PeerOk;
    AppliedHistory(h, k, n, a);
    DeliveredServer(h, k, n, i, s);
    OnlyAppliedGrows(h, k, a, i);
    assert Terms(d) == Terms(c);
    DeliverOwes(h, k, Terms(c), i, s.peer, d.servers[i].peer, a);
    MessagesGrow(c, k, i);
    SameMessages(c.(history := k), d);
    hide CrossOk;
    StepKeeps(c, d, i);
  }

  lemma ToldDelivery(h: History, s: Server, n: nat, i: nat)
    requires 0 <= s.peer.lastApplied < |s.peer.log| - 1
    ensures OnlyApplied(h, Told(h, s, n, Deliver(i)), Delivery(i, s.peer))
  {
  }
}
