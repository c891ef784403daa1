/** Elections keep the invariant. */
module RaftVoting {
  import opened RaftPeer
  import opened RaftCluster
  import opened RaftInvariant
  import opened RaftGrowth
  import opened RaftLogs
  import opened RaftKeeps

  lemma GoodLogRaise(h: History, log: seq<LogEntry>, t: int, u: int)
    requires GoodLog(h, log, t) && t <= u
    ensures GoodLog(h, log, u)
  {
    hide EntryOk;
  }

  lemma LogsGrowRefl(h: History)
    ensures LogsGrow(h, h) && AcksGrow(h, h)
  {
  }

  /** A peer that hears of a later term becomes a follower of it. */
  lemma PeerDeposed(h: History, n: nat, id: nat, p: Peer, t: int)
    requires PeerOk(h, n, id, p) && t > p.term
    ensures PeerOk(h, n, id, BecomeFollower(p, t, -1))
  {
    hide GoodLog, Committed, LeaderOk, CandidateOk;
    GoodLogRaise(h, p.log, p.term, t);
    LogsGrowRefl(h);
    CommittedGrows(h, h, n, p.term, t, p.commitIndex, p.log);
  }

  lemma Deposed(h: History, n: nat, id: nat, s: Server, t: int)
    requires ServerOk(h, n, id, s) && t > s.peer.term
    ensures ServerOk(h, n, id, s.(peer := BecomeFollower(s.peer, t, -1)))
  {
    ServerPeer(h, n, id, s);
    PeerDeposed(h, n, id, s.peer, t);
    LogsGrowRefl(h);
    hide ServerOk, PeerOk;
    ServerFrom(h, h, n, id, s, BecomeFollower(s.peer, t, -1));
  }

  lemma ReceiveVoteKeeps(c: Cluster, i: nat, vote: VoteAnswer)
    requires Inv(c) && Enabled(c, ReceiveVote(i, vote))
    ensures Inv(Next(c, ReceiveVote(i, vote)))
  {
    hide HistoryOk, CrossOk, PeerOk, JobOk, CountedOk, ServerOk, MessagesOk;
    var d := Next(c, ReceiveVote(i, vote));
    var h, n, s := c.history, |c.servers|, c.servers[i];
    assert ServerOk(h, n, i, s);
    if vote.args.term == s.peer.term && vote.args.term == s.ballot.term && vote.reply.term > s.peer.term {
      Deposed(h, n, i, s, vote.reply.term);
    } else {
      assert VoteAnswerOk(h, n, vote) by { AnswerIsOk(c, vote); }
      VoteCounted(h, n, i, s, vote);
    }
    SameMessages(c, d);
    QuietKeeps(c, d, i);
  }

  lemma AnswerIsOk(c: Cluster, vote: VoteAnswer)
    requires MessagesOk(c) && vote in c.voteAnswers
    ensures VoteAnswerOk(c.history, |c.servers|, vote)
  {
  }

  lemma VoteCounted(h: History, n: nat, id: nat, s: Server, vote: VoteAnswer)
    requires ServerOk(h, n, id, s) && VoteAnswerOk(h, n, vote) && vote.args.candidate == id
    requires vote.reply.term <= s.peer.term || vote.args.term != s.peer.term || vote.args.term != s.ballot.term
    ensures ServerOk(h, n, id, CountVote(s, vote))
  {
    hide PeerOk, JobOk, CountedOk;
  }

  lemma SameMessages(c: Cluster, d: Cluster)
    requires MessagesOk(c) && c.history == d.history && |c.servers| == |d.servers|
    requires c.voteRequests == d.voteRequests && c.voteAnswers == d.voteAnswers
    requires c.appends == d.appends && c.appendAnswers == d.appendAnswers
    ensures MessagesOk(d)
  {
  }

  /** The history with one more vote in it, possibly the candidate's own. */
  ghost predicate VoteAdded(h: History, k: History, g: Grant) {
    && k == h.(granted := h.granted + {g}, candidacies := k.candidacies)
    && (forall c :: c in h.candidacies ==> c in k.candidacies && h.candidacies[c] == k.candidacies[c])
  }

  /** The vote does not contradict what the voter has done before. */
  ghost predicate Consistent(h: History, g: Grant) {
    && (g.term in h.elected && g.voter in h.elected[g.term].quorum ==> g.candidate == h.elected[g.term].leader)
    && (g.term !in h.elected ==> forall f :: f in h.granted && f.term == g.term && f.voter == g.voter ==> f == g)
  }

  lemma VoteAddedGrows(h: History, k: History, g: Grant)
    requires VoteAdded(h, k, g)
    ensures Grows(h, k, g.voter)
  {
  }

  lemma ElectionsKept(h: History, k: History, n: nat, g: Grant, t: int)
    requires VoteAdded(h, k, g) && Consistent(h, g) && t in h.elected && ElectionOk(h, n, t)
    ensures ElectionOk(k, n, t)
  {
    hide GoodLog, IsQuorum;
    GoodLogGrows(h, k, h.logs[t], t);
  }

  lemma CandidacyKept(h: History, k: History, g: Grant, c: (int, nat))
    requires VoteAdded(h, k, g) && c in h.candidacies && CandidacyOk(h, c)
    ensures CandidacyOk(k, c)
  {
    hide GoodLog;
    GoodLogGrows(h, k, h.candidacies[c], c.0 - 1);
  }

  lemma VoteAddedHistory(h: History, k: History, n: nat, g: Grant)
    requires HistoryOk(h, n) && VoteAdded(h, k, g) && Consistent(h, g)
    requires g.voter < n && g.candidate < n && (g.term, g.candidate) in k.candidacies
    requires forall c :: c in k.candidacies && c !in h.candidacies ==> CandidacyOk(k, c)
    ensures HistoryOk(k, n)
  {
    hide ElectionOk, CandidacyOk, AppliedOk;
    forall t | t in k.elected ensures ElectionOk(k, n, t) { ElectionsKept(h, k, n, g, t); }
    forall c | c in k.candidacies ensures CandidacyOk(k, c) {
      if c in h.candidacies { CandidacyKept(h, k, g, c); }
    }
    forall a | a in k.applied ensures AppliedOk(k, n, a) { AppliedGrows(h, k, n, a); }
    forall f | f in k.granted ensures GrantOk(k, n, f) {
      if f in h.granted { assert GrantOk(h, n, f); }
    }
  }

  /** A vote leaves the logs and the acknowledgements as they were. */
  lemma VoteAddedOwes(h: History, k: History, terms: seq<int>, later: seq<int>, g: Grant, p: Peer, q: Peer)
    requires VoteAdded(h, k, g) && g.voter < |terms| && AcksHeld(h, terms, g.voter, p) && q.log == p.log && p.term <= q.term
    requires Frozen(h, k, terms, later)
    requires g !in h.granted ==> GrantHeld(k, later, g)
    ensures StepOwes(h, k, terms, later, g.voter, q)
  {
    hide Secure, Frozen, GrantHeld;
    LogsGrowRefl(h);
    forall t, i | OwnTerm(k, t, i) && t < q.term + 1 && AckOf(k, g.voter, t) >= i ensures Secure(k, later, t, i, q.log) {
      assert OwnTerm(h, t, i);
      assert AckOf(h, g.voter, t) == AckOf(k, g.voter, t);
      assert Secure(h, terms, t, i, p.log);
      SecureGrows(h, k, terms, later, t, i, p.log);
    }
    forall t | AckOf(k, g.voter, t) >= 0 ensures t <= q.term {
      assert AckOf(h, g.voter, t) == AckOf(k, g.voter, t);
    }
  }

  lemma CandidateServer(h: History, k: History, n: nat, i: nat, s: Server)
    requires HistoryOk(h, n) && ServerOk(h, n, i, s) && i < n
    requires k == Told(h, s, n, StartElection(i))
    ensures VoteAdded(h, k, Grant(s.peer.term + 1, i, i)) && Consistent(h, Grant(s.peer.term + 1, i, i))
    ensures HistoryOk(k, n) && ServerOk(k, n, i, Moved(s, n, StartElection(i)))
  {
    hide HistoryOk, ServerOk;
    Standing(h, k, n, i, s);
    StandingServer(h, k, n, i, s);
    StandingHistory(h, k, n, i, s);
  }

  /** Nobody has a vote, let alone a victory, in a term it has not reached. */
  lemma Standing(h: History, k: History, n: nat, i: nat, s: Server)
    requires HistoryOk(h, n) && ServerOk(h, n, i, s)
    requires k == Told(h, s, n, StartElection(i))
    ensures forall g :: g in h.granted && g.voter == i ==> g.term <= s.peer.term
    ensures forall t :: t in h.elected && (i in h.elected[t].quorum || h.elected[t].leader == i) ==> t <= s.peer.term
    ensures VoteAdded(h, k, Grant(s.peer.term + 1, i, i)) && Consistent(h, Grant(s.peer.term + 1, i, i))
  {
    hide GoodLog, Committed, LeaderOk, CandidateOk, JobOk, CountedOk, AckOk, AppliedOk, GrantOk;
    forall t | t in h.elected && (i in h.elected[t].quorum || h.elected[t].leader == i) ensures t <= s.peer.term {
      assert ElectionOk(h, n, t);
      assert Grant(t, i, h.elected[t].leader) in h.granted;
    }
    forall c | c in h.candidacies ensures c in k.candidacies && h.candidacies[c] == k.candidacies[c] {
      assert CandidacyOk(h, c);
    }
  }

  lemma StandingServer(h: History, k: History, n: nat, i: nat, s: Server)
    requires ServerOk(h, n, i, s)
    requires k == Told(h, s, n, StartElection(i)) && VoteAdded(h, k, Grant(s.peer.term + 1, i, i))
    requires forall g :: g in h.granted && g.voter == i ==> g.term <= s.peer.term
    requires forall t :: t in h.elected && (i in h.elected[t].quorum || h.elected[t].leader == i) ==> t <= s.peer.term
    ensures ServerOk(k, n, i, Moved(s, n, StartElection(i)))
  {
    hide GoodLog, Committed, JobOk, CountedOk, LeaderOk;
    var p, q := s.peer, BecomeCandidate(s.peer, i);
    GoodLogGrows(h, k, p.log, p.term);
    GoodLogRaise(k, p.log, p.term, q.term);
    CommittedGrows(h, k, n, p.term, q.term, p.commitIndex, p.log);
    ServerFrom(h, k, n, i, s, q);
  }

  lemma StandingHistory(h: History, k: History, n: nat, i: nat, s: Server)
    requires HistoryOk(h, n) && ServerOk(h, n, i, s) && i < n
    requires k == Told(h, s, n, StartElection(i))
    requires VoteAdded(h, k, Grant(s.peer.term + 1, i, i)) && Consistent(h, Grant(s.peer.term + 1, i, i))
    ensures HistoryOk(k, n)
  {
    hide HistoryOk, GoodLog, Committed, JobOk, CountedOk, VotesOk, LeaderOk, CandidateOk;
    GoodLogGrows(h, k, s.peer.log, s.peer.term);
    assert CandidacyOk(k, (s.peer.term + 1, i));
    VoteAddedHistory(h, k, n, Grant(s.peer.term + 1, i, i));
  }

  lemma StandingHeld(h: History, k: History, terms: seq<int>, later: seq<int>, i: nat, p: Peer)
    requires VoteAdded(h, k, Grant(p.term + 1, i, i)) && (p.term + 1, i) in k.candidacies && k.candidacies[(p.term + 1, i)] == p.log
    requires Frozen(h, k, terms, later) && AcksHeld(h, terms, i, p)
    ensures GrantHeld(k, later, Grant(p.term + 1, i, i))
  {
    hide Secure, Frozen;
    LogsGrowRefl(h);
    forall t, j | OwnTerm(k, t, j) && t < p.term + 1 && AckOf(k, i, t) >= j ensures Secure(k, later, t, j, p.log) {
      assert OwnTerm(h, t, j);
      assert AckOf(h, i, t) == AckOf(k, i, t);
      assert Secure(h, terms, t, j, p.log);
      SecureGrows(h, k, terms, later, t, j, p.log);
    }
  }

  /** No acknowledgement changes, and the actor's term does not fall. */
  lemma VoteAddedFrozen(c: Cluster, d: Cluster, g: Grant)
    requires VoteAdded(c.history, d.history, g) && Alone(c, d, g.voter)
    requires c.servers[g.voter].peer.term <= d.servers[g.voter].peer.term
    ensures Frozen(c.history, d.history, Terms(c), Terms(d))
  {
  }

  lemma StartElectionKeeps(c: Cluster, i: nat)
    requires Inv(c) && Enabled(c, StartElection(i))
    ensures Inv(Next(c, StartElection(i)))
  {
    hide HistoryOk, ServerOk, MessagesOk, AcksHeld, GrantHeld, LeaderHolds, StepOwes, Frozen, Consistent;
    var d := Next(c, StartElection(i));
    var h, k, n, s := c.history, d.history, |c.servers|, c.servers[i];
    var g := Grant(s.peer.term + 1, i, i);
    CandidateServer(h, k, n, i, s);
    VoteAddedFrozen(c, d, g);
    VoteAddedGrows(h, k, g);
    StandingHeld(h, k, Terms(c), Terms(d), i, s.peer);
    VoteAddedOwes(h, k, Terms(c), Terms(d), g, s.peer, d.servers[i].peer);
    MessagesGrow(c, k, i);
    RequestAdded(c.(history := k), d, VoteArgs(g.term, i, LastEntry(s.peer.log).term, LastEntry(s.peer.log).index));
    hide Grows, VoteAdded, CrossOk;
    StepKeeps(c, d, i);
  }

  lemma RequestAdded(c: Cluster, d: Cluster, a: VoteArgs)
    requires MessagesOk(c) && d == c.(servers := d.servers, voteRequests := c.voteRequests + {a}) && |c.servers| == |d.servers|
    requires VoteRequestOk(c.history, |c.servers|, a)
    ensures MessagesOk(d)
  {
  }

  lemma AgreeTrans(a: seq<LogEntry>, b: seq<LogEntry>, c: seq<LogEntry>, k: int)
    requires Agree(a, b, k) && Agree(b, c, k)
    ensures Agree(a, c, k)
  {
  }

  ghost predicate AllLeadersHold(h: History, terms: seq<int>) {
    forall u :: u in h.logs ==> LeaderHolds(h, terms, u)
  }

  /** The election restriction: a candidate at least as up to date as a log that holds an
      entry holds that entry too, unless the entry can never be chosen. */
  lemma UpToDateHolds(h: History, terms: seq<int>, log: seq<LogEntry>, v: int, stood: seq<LogEntry>, w: int, t: int, i: int)
    requires GoodLog(h, log, v) && GoodLog(h, stood, w) && t > 0 && OwnTerm(h, t, i)
    requires IsUpToDate(log, LastEntry(stood).term, LastEntry(stood).index)
    requires AllLeadersHold(h, terms) && forall u :: u in h.logs ==> GoodLog(h, h.logs[u], u)
    requires Agree(log, h.logs[t], i)
    ensures Secure(h, terms, t, i, stood)
  {
    hide Blocked, Agree;
    AgreeBounds(log, h.logs[t], i);
    AgreeDown(log, h.logs[t], i, i);
    var top := |stood| - 1;
    assert EntryOk(h, log, |log| - 1);
    assert EntryOk(h, stood, top);
    var u := stood[top].term;
    assert t <= u;
    if u == t {
      AgreeDown(stood, h.logs[t], top, i);
    } else {
      NewerHolds(h, terms, stood, t, i);
    }
  }

  lemma NewerHolds(h: History, terms: seq<int>, stood: seq<LogEntry>, t: int, i: int)
    requires |stood| > 0 && OwnTerm(h, t, i)
    requires var u := LastEntry(stood).term; t < u && u in h.logs && Agree(stood, h.logs[u], |stood| - 1) && LeaderHolds(h, terms, u) && GoodLog(h, h.logs[u], u)
    ensures Secure(h, terms, t, i, stood)
  {
    hide Blocked, Agree, EntryOk;
    var u, top := LastEntry(stood).term, |stood| - 1;
    var lead := h.logs[u];
    assert Secure(h, terms, t, i, lead);
    if Agree(lead, h.logs[t], i) {
      AgreeBounds(lead, h.logs[t], i);
      AgreeBounds(stood, lead, top);
      AgreeDown(lead, h.logs[t], i, i);
      AgreeDown(stood, lead, top, top);
      assert i < top;
      AgreeDown(stood, lead, top, i);
      AgreeTrans(stood, lead, h.logs[t], i);
    }
  }

  ghost predicate Grants(p: Peer, args: VoteArgs) {
    |p.log| > 0 && RequestVote(p, args).1.granted
  }

  /** A peer that grants a vote does not go back on an earlier one. */
  lemma VoteIsConsistent(h: History, n: nat, i: nat, p: Peer, args: VoteArgs)
    requires HistoryOk(h, n) && PeerOk(h, n, i, p) && Grants(p, args)
    ensures Consistent(h, Grant(args.term, i, args.candidate))
  {
    hide GoodLog, Committed, AckOk, AppliedOk, CandidacyOk, LeaderOk, CandidateOk;
    var t := args.term;
    if t in h.elected && i in h.elected[t].quorum {
      assert ElectionOk(h, n, t);
      assert Grant(t, i, h.elected[t].leader) in h.granted;
    }
  }

  lemma VoterPeer(h: History, k: History, n: nat, i: nat, p: Peer, args: VoteArgs)
    requires PeerOk(h, n, i, p) && Grants(p, args)
    requires VoteAdded(h, k, Grant(args.term, i, args.candidate)) && Consistent(h, Grant(args.term, i, args.candidate))
    requires args.term in h.elected ==> ElectionOk(h, n, args.term)
    ensures PeerOk(k, n, i, RequestVote(p, args).0)
  {
    hide GoodLog, Committed, IsUpToDate;
    var q := RequestVote(p, args).0;
    GoodLogGrows(h, k, p.log, p.term);
    GoodLogRaise(k, p.log, p.term, q.term);
    CommittedGrows(h, k, n, p.term, q.term, p.commitIndex, p.log);
  }

  lemma VoteHeld(h: History, k: History, n: nat, terms: seq<int>, later: seq<int>, i: nat, p: Peer, args: VoteArgs)
    requires HistoryOk(h, n) && PeerOk(h, n, i, p) && Grants(p, args) && VoteRequestOk(h, n, args)
    requires AcksHeld(h, terms, i, p) && AllLeadersHold(h, terms)
    requires VoteAdded(h, k, Grant(args.term, i, args.candidate)) && Frozen(h, k, terms, later)
    ensures GrantHeld(k, later, Grant(args.term, i, args.candidate))
  {
    hide PeerOk, Secure, Frozen, GoodLog, IsUpToDate, GrantOk, AckOk, AppliedOk, LeaderHolds;
    var key := (args.term, args.candidate);
    var stood := h.candidacies[key];
    assert CandidacyOk(h, key);
    assert IsUpToDate(p.log, args.lastLogTerm, args.lastLogIndex);
    assert GoodLog(h, p.log, p.term) by { assert PeerOk(h, n, i, p) ; PeerLog(h, n, i, p); }
    LogsGrowRefl(h);
    forall t, j | OwnTerm(k, t, j) && t < args.term && AckOf(k, i, t) >= j ensures Secure(k, later, t, j, stood) {
      assert OwnTerm(h, t, j);
      assert AckOf(h, i, t) == AckOf(k, i, t);
      assert Secure(h, terms, t, j, p.log);
      HeldByCandidate(h, n, terms, p.log, p.term, stood, args.term - 1, t, j);
      SecureGrows(h, k, terms, later, t, j, stood);
    }
  }

  lemma PeerLog(h: History, n: nat, i: nat, p: Peer)
    requires PeerOk(h, n, i, p)
    ensures GoodLog(h, p.log, p.term) && p.term >= 0
  {
  }

  lemma HeldByCandidate(h: History, n: nat, terms: seq<int>, log: seq<LogEntry>, v: int, stood: seq<LogEntry>, w: int, t: int, i: int)
    requires HistoryOk(h, n) && GoodLog(h, log, v) && GoodLog(h, stood, w) && OwnTerm(h, t, i)
    requires IsUpToDate(log, LastEntry(stood).term, LastEntry(stood).index)
    requires AllLeadersHold(h, terms) && Secure(h, terms, t, i, log)
    ensures Secure(h, terms, t, i, stood)
  {
    hide GoodLog, IsUpToDate, AllLeadersHold, Blocked;
    assert ElectionOk(h, n, t);
    if Agree(log, h.logs[t], i) {
      forall u | u in h.logs ensures GoodLog(h, h.logs[u], u) {
        assert ElectionOk(h, n, u);
      }
      UpToDateHolds(h, terms, log, v, stood, w, t, i);
    }
  }

  lemma RequestIsOk(c: Cluster, args: VoteArgs)
    requires MessagesOk(c) && args in c.voteRequests
    ensures VoteRequestOk(c.history, |c.servers|, args)
  {
  }

  lemma VoteAnswered(c: Cluster, d: Cluster, a: VoteAnswer)
    requires MessagesOk(c) && d == c.(servers := d.servers, voteAnswers := c.voteAnswers + {a}) && |c.servers| == |d.servers|
    requires VoteAnswerOk(c.history, |c.servers|, a)
    ensures MessagesOk(d)
  {
  }

  lemma HandleVoteKeeps(c: Cluster, i: nat, args: VoteArgs)
    requires Inv(c) && Enabled(c, HandleVote(i, args))
    ensures Inv(Next(c, HandleVote(i, args)))
  {
    hide HistoryOk, ServerOk, MessagesOk, CrossOk;
    if Grants(c.servers[i].peer, args) {
      GrantedKeeps(c, i, args);
    } else {
      RefusedKeeps(c, i, args);
    }
  }

  lemma RefusedKeeps(c: Cluster, i: nat, args: VoteArgs)
    requires Inv(c) && Enabled(c, HandleVote(i, args)) && !Grants(c.servers[i].peer, args)
    ensures Inv(Next(c, HandleVote(i, args)))
  {
    hide HistoryOk, ServerOk, MessagesOk, CrossOk, IsUpToDate;
    var d := Next(c, HandleVote(i, args));
    var h, n, s := c.history, |c.servers|, c.servers[i];
    if args.term > s.peer.term {
      Deposed(h, n, i, s, args.term);
    }
    VoteAnswered(c, d, VoteAnswer(i, args, RequestVote(s.peer, args).1));
    QuietKeeps(c, d, i);
  }

  lemma VoterAdvances(p: Peer, args: VoteArgs)
    requires |p.log| > 0
    ensures Advances(p, RequestVote(p, args).0)
  {
  }

  lemma GrantedServer(h: History, k: History, n: nat, i: nat, s: Server, args: VoteArgs)
    requires HistoryOk(h, n) && ServerOk(h, n, i, s) && i < n && Grants(s.peer, args) && VoteRequestOk(h, n, args)
    requires k == Told(h, s, n, HandleVote(i, args))
    ensures VoteAdded(h, k, Grant(args.term, i, args.candidate))
    ensures HistoryOk(k, n) && ServerOk(k, n, i, Moved(s, n, HandleVote(i, args)))
  {
    hide PeerOk, ElectionOk, CandidacyOk, GrantOk, AckOk, AppliedOk, JobOk, CountedOk, Consistent, RequestVote;
    VoteIsConsistent(h, n, i, s.peer, args);
    VoterPeer(h, k, n, i, s.peer, args);
    assert Advances(s.peer, RequestVote(s.peer, args).0) by { VoterAdvances(s.peer, args); }
    ServerFrom(h, k, n, i, s, RequestVote(s.peer, args).0);
    VoteAddedHistory(h, k, n, Grant(args.term, i, args.candidate));
  }

  lemma GrantedKeeps(c: Cluster, i: nat, args: VoteArgs)
    requires Inv(c) && Enabled(c, HandleVote(i, args)) && Grants(c.servers[i].peer, args)
    ensures Inv(Next(c, HandleVote(i, args)))
  {
    hide HistoryOk, ServerOk, MessagesOk, AcksHeld, GrantHeld, LeaderHolds, StepOwes, Frozen, IsUpToDate, VoteRequestOk;
    var d := Next(c, HandleVote(i, args));
    var h, k, n, s := c.history, d.history, |c.servers|, c.servers[i];
    var g := Grant(args.term, i, args.candidate);
    RequestIsOk(c, args);
    GrantedServer(h, k, n, i, s, args);
    VoteAddedFrozen(c, d, g);
    VoteAddedGrows(h, k, g);
    ServerPeer(h, n, i, s);
    VoteHeld(h, k, n, Terms(c), Terms(d), i, s.peer, args);
    VoteAddedOwes(h, k, Terms(c), Terms(d), g, s.peer, d.servers[i].peer);
    MessagesGrow(c, k, i);
    VoteAnswered(c.(history := k), d, VoteAnswer(i, args, RequestVote(s.peer, args).1));
    hide Grows, VoteAdded, CrossOk;
    StepKeeps(c, d, i);
  }

  lemma ServerPeer(h: History, n: nat, i: nat, s: Server)
    requires ServerOk(h, n, i, s)
    ensures PeerOk(h, n, i, s.peer)
  {
  }

  // ---- winning an election

  /** The winner holds whatever an earlier leader may have had chosen: some voter acknowledged
      it and checked the winner's log, or the voters together block it. */
  lemma WinnerHolds(h: History, terms: seq<int>, q: set<nat>, u: int, i: nat, t: int, j: int)
    requires IsQuorum(q, |terms|) && (u, i) in h.candidacies && OwnTerm(h, t, j) && t < u
    requires forall m :: m in q ==> GrantHeld(h, terms, Grant(u, m, i)) && terms[m] >= u
    ensures Secure(h, terms, t, j, h.candidacies[(u, i)])
  {
    hide Blocked;
    if m :| m in q && AckOf(h, m, t) >= j {
      assert GrantHeld(h, terms, Grant(u, m, i));
      assert HoldsAcked(h, terms, m, u, h.candidacies[(u, i)]);
    } else {
      assert NoneWillAck(h, terms, q, t, j);
      VotersBlock(h, terms, q, t, j);
    }
  }

  lemma VotersBlock(h: History, terms: seq<int>, q: set<nat>, t: int, j: int)
    requires IsQuorum(q, |terms|) && NoneWillAck(h, terms, q, t, j)
    ensures Blocked(h, terms, t, j)
  {
  }

  ghost predicate CanLead(h: History, n: nat, i: nat, s: Server) {
    && ServerOk(h, n, i, s) && i < n && s.peer.role.Candidate?
    && s.ballot.term == s.peer.term && Enough(s.ballot.voters, n)
  }

  ghost function Voters(i: nat, s: Server): set<nat> { s.ballot.voters + {i} }

  /** The votes are a majority, they were all granted, and nobody else has won the term. */
  lemma WinsAlone(h: History, n: nat, i: nat, s: Server)
    requires HistoryOk(h, n) && CanLead(h, n, i, s)
    ensures IsQuorum(Voters(i, s), n) && s.peer.term !in h.elected
    ensures forall q :: q in Voters(i, s) ==> Grant(s.peer.term, q, i) in h.granted
  {
    hide GoodLog, Committed, JobOk, CountedOk, VotesOk, CandidacyOk, GrantOk, AckOk, AppliedOk;
    var t := s.peer.term;
    EnoughIsQuorum(s.ballot.voters, i, n);
    if t in h.elected {
      assert ElectionOk(h, n, t);
      var m := QuorumsMeet(h.elected[t].quorum, Voters(i, s), n);
      assert false;
    }
  }

  lemma LeadGrows(h: History, k: History, n: nat, i: nat, s: Server)
    requires HistoryOk(h, n) && |s.peer.log| > 0 && s.peer.term !in h.elected && k == Told(h, s, n, TakeLead(i))
    ensures Grows(h, k, i) && AckedOnly(h, k, i, s.peer.term)
    ensures AckOf(k, i, s.peer.term) == |s.peer.log| - 1
  {
    hide ElectionOk, CandidacyOk, GrantOk, AppliedOk;
    assert (i, s.peer.term) !in h.acked;
  }

  lemma NewElection(h: History, k: History, n: nat, i: nat, s: Server)
    requires HistoryOk(h, n) && CanLead(h, n, i, s) && k == Told(h, s, n, TakeLead(i))
    requires s.peer.term !in h.elected && Grows(h, k, i) && AckOf(k, i, s.peer.term) == |s.peer.log| - 1
    requires IsQuorum(Voters(i, s), n) && forall q :: q in Voters(i, s) ==> Grant(s.peer.term, q, i) in h.granted
    ensures ElectionOk(k, n, s.peer.term)
  {
    hide GoodLog, Committed, JobOk, CountedOk, VotesOk, ElectionOk, AckOk, AppliedOk, AcksGrow, BallotOk, IsQuorum;
    var t := s.peer.term;
    GoodLogGrows(h, k, s.peer.log, t);
    assert CandidacyOk(h, (t, i));
    assert t > 0 by { CandidateTerm(h, s.peer.log, t); }
    forall g | g in k.granted && g.term == t && g.voter in Voters(i, s) ensures g.candidate == i {
      assert GrantOk(h, n, g);
      assert Grant(t, g.voter, i) in h.granted;
    }
    assert k.elected[t] == Election(i, Voters(i, s));
    assert ElectionOk(k, n, t) by { ElectionFrom(k, n, t); }
  }

  lemma ElectionFrom(h: History, n: nat, term: int)
    requires term in h.elected && term > 0 && term in h.logs
    requires IsQuorum(h.elected[term].quorum, n) && h.elected[term].leader in h.elected[term].quorum
    requires forall q :: q in h.elected[term].quorum ==> Grant(term, q, h.elected[term].leader) in h.granted
    requires forall g :: g in h.granted && g.term == term && g.voter in h.elected[term].quorum ==> g.candidate == h.elected[term].leader
    requires GoodLog(h, h.logs[term], term) && AckOf(h, h.elected[term].leader, term) == |h.logs[term]| - 1
    ensures ElectionOk(h, n, term)
  {
  }

  lemma CandidateTerm(h: History, log: seq<LogEntry>, t: int)
    requires GoodLog(h, log, t - 1)
    ensures t > 0
  {
  }

  lemma LeadHistory(h: History, k: History, n: nat, i: nat, s: Server)
    requires HistoryOk(h, n) && CanLead(h, n, i, s) && |s.peer.log| > 0 && k == Told(h, s, n, TakeLead(i))
    requires s.peer.term !in h.elected && Grows(h, k, i) && ElectionOk(k, n, s.peer.term)
    requires AckedOnly(h, k, i, s.peer.term) && AckOf(k, i, s.peer.term) == |s.peer.log| - 1
    ensures HistoryOk(k, n)
  {
    hide ElectionOk, CandidacyOk, GrantOk, AckOk, AppliedOk, ServerOk, LogsGrow, AcksGrow, AckedOnly, GoodLog;
    forall t | t in k.elected ensures ElectionOk(k, n, t) {
      if t != s.peer.term {
        OtherAck(h, k, i, s.peer.term, h.elected[t].leader, t);
        ElectionGrows(h, k, n, i, t);
      }
    }
    HistoryFrom(h, k, n, i, s.peer.term);
  }

  lemma LogNotEmpty(h: History, log: seq<LogEntry>, t: int)
    requires GoodLog(h, log, t)
    ensures |log| > 0
  {
  }

  lemma LeadPeer(h: History, k: History, n: nat, i: nat, s: Server)
    requires HistoryOk(h, n) && CanLead(h, n, i, s) && k == Told(h, s, n, TakeLead(i))
    requires s.peer.term !in h.elected && Grows(h, k, i)
    ensures PeerOk(k, n, i, BecomeLeader(s.peer, n))
  {
    hide HistoryOk, GoodLog, Committed, JobOk, CountedOk, AcksGrow, CandidateOk;
    var p := s.peer;
    GoodLogGrows(h, k, p.log, p.term);
    LogNotEmpty(h, p.log, p.term);
    CommittedGrows(h, k, n, p.term, p.term, p.commitIndex, p.log);
  }

  lemma LeadServer(h: History, k: History, n: nat, i: nat, s: Server)
    requires HistoryOk(h, n) && CanLead(h, n, i, s) && k == Told(h, s, n, TakeLead(i))
    requires s.peer.term !in h.elected && Grows(h, k, i)
    ensures ServerOk(k, n, i, Moved(s, n, TakeLead(i)))
  {
    LeadPeer(h, k, n, i, s);
    hide HistoryOk, PeerOk, ServerOk, LogsGrow, AcksGrow;
    ServerFrom(h, k, n, i, s, BecomeLeader(s.peer, n));
  }

  /** Taking the lead adds no entry of the new term. */
  lemma LeadOwnsNothing(h: History, k: History, n: nat, i: nat, s: Server)
    requires HistoryOk(h, n) && CanLead(h, n, i, s) && k == Told(h, s, n, TakeLead(i))
    ensures forall t, j :: OwnTerm(k, t, j) ==> OwnTerm(h, t, j) && t != s.peer.term
  {
    hide ElectionOk, GrantOk, AckOk, AppliedOk, Committed, JobOk, CountedOk, EntryOk;
    assert CandidacyOk(h, (s.peer.term, i));
  }

  lemma LeadOwes(h: History, k: History, n: nat, terms: seq<int>, i: nat, s: Server, q: Peer)
    requires CanLead(h, n, i, s) && n == |terms| && terms[i] == s.peer.term && q == BecomeLeader(s.peer, n)
    requires k == Told(h, s, n, TakeLead(i)) && Grows(h, k, i) && Frozen(h, k, terms, terms)
    requires forall t, j :: OwnTerm(k, t, j) ==> OwnTerm(h, t, j) && t != s.peer.term
    requires AckedOnly(h, k, i, s.peer.term) && AcksHeld(h, terms, i, s.peer)
    requires IsQuorum(Voters(i, s), n) && (s.peer.term, i) in h.candidacies && h.candidacies[(s.peer.term, i)] == s.peer.log
    requires forall m :: m in Voters(i, s) ==> GrantHeld(h, terms, Grant(s.peer.term, m, i)) && terms[m] >= s.peer.term
    ensures StepOwes(h, k, terms, terms, i, q)
  {
    hide Secure, Frozen, ServerOk, GrantHeld, AcksGrow, IsQuorum, Blocked;
    var u := s.peer.term;
    forall t, j | OwnTerm(k, t, j) && t < u + 1 && AckOf(k, i, t) >= j ensures Secure(k, terms, t, j, q.log) {
      assert Secure(h, terms, t, j, q.log);
      SecureGrows(h, k, terms, terms, t, j, q.log);
    }
    forall t, j | OwnTerm(k, t, j) && t < u ensures Secure(k, terms, t, j, s.peer.log) {
      WinnerHolds(h, terms, Voters(i, s), u, i, t, j);
      SecureGrows(h, k, terms, terms, t, j, s.peer.log);
    }
  }

  lemma TakeLeadKeeps(c: Cluster, i: nat)
    requires Inv(c) && Enabled(c, TakeLead(i))
    ensures Inv(Next(c, TakeLead(i)))
  {
    hide HistoryOk, ServerOk, MessagesOk, AcksHeld, GrantHeld, LeaderHolds, StepOwes, Frozen, Grows, IsQuorum;
    var d := Next(c, TakeLead(i));
    var h, k, n, s := c.history, d.history, |c.servers|, c.servers[i];
    var terms := Terms(c);
    WinsAlone(h, n, i, s);
    LeadGrows(h, k, n, i, s);
    LeadServer(h, k, n, i, s);
    NewElection(h, k, n, i, s);
    LeadHistory(h, k, n, i, s);
    LeadOwnsNothing(h, k, n, i, s);
    assert Terms(d) == terms;
    LeadFrozen(h, k, terms, i);
    GrantsAreReached(c);
    StoodWith(h, n, i, s);
    LeadOwes(h, k, n, terms, i, s, d.servers[i].peer);
    MessagesGrow(c, k, i);
    SameMessages(c.(history := k), d);
    hide CrossOk;
    StepKeeps(c, d, i);
  }

  lemma LeadFrozen(h: History, k: History, terms: seq<int>, i: nat)
    requires i < |terms| && AckedOnly(h, k, i, terms[i])
    ensures Frozen(h, k, terms, terms)
  {
  }

  lemma StoodWith(h: History, n: nat, i: nat, s: Server)
    requires CanLead(h, n, i, s)
    ensures (s.peer.term, i) in h.candidacies && h.candidacies[(s.peer.term, i)] == s.peer.log
  {
  }
}
