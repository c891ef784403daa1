/** The history only grows, and what the invariant says of bystanders survives its growth. */
module RaftGrowth {
  import opened RaftPeer
  import opened RaftCluster
  import opened RaftInvariant

  ghost predicate LogsGrow(h: History, k: History) {
    forall t :: t in h.logs ==> t in k.logs && h.logs[t] <= k.logs[t]
  }

  ghost predicate AcksGrow(h: History, k: History) {
    forall q, t :: AckOf(h, q, t) <= AckOf(k, q, t)
  }

  /** The history grows by a step of the server id. */
  ghost predicate Grows(h: History, k: History, id: nat) {
    && LogsGrow(h, k) && AcksGrow(h, k)
    && (forall q, t :: q != id ==> AckOf(h, q, t) == AckOf(k, q, t))
    && (forall t :: t in h.logs && t in k.logs && h.logs[t] != k.logs[t] ==> t in h.elected && h.elected[t].leader == id)
    && h.granted <= k.granted && h.applied <= k.applied
    && (forall g :: g in k.granted && g.voter != id ==> g in h.granted)
    && (forall t :: t in h.elected ==> t in k.elected && h.elected[t] == k.elected[t])
    && (forall t :: t in k.elected && t !in h.elected ==> k.elected[t].leader == id)
    && (forall c :: c in h.candidacies ==> c in k.candidacies && h.candidacies[c] == k.candidacies[c])
  }

  /** Terms do not fall, and a peer acknowledges nothing of a term it has left. */
  ghost predicate Frozen(h: History, k: History, terms: seq<int>, later: seq<int>) {
    && |terms| == |later|
    && (forall q :: 0 <= q < |terms| ==> terms[q] <= later[q])
    && forall q: nat, t :: q < |terms| && terms[q] > t ==> AckOf(h, q, t) == AckOf(k, q, t)
  }

  lemma GoodLogGrows(h: History, k: History, log: seq<LogEntry>, term: int)
    requires LogsGrow(h, k) && GoodLog(h, log, term)
    ensures GoodLog(k, log, term)
  {
    hide SortedUpTo;
    forall j: nat | j < |log| ensures EntryOk(k, log, j) {
      assert EntryOk(h, log, j);
    }
  }

  lemma ChosenGrows(h: History, k: History, n: nat, term: int, i: int)
    requires LogsGrow(h, k) && AcksGrow(h, k) && Chosen(h, n, term, i)
    ensures Chosen(k, n, term, i)
  {
    var q :| IsQuorum(q, n) && AllAcked(h, q, term, i);
    assert AllAcked(k, q, term, i);
  }

  lemma KnownGrows(h: History, k: History, n: nat, bound: int, bound2: int, commit: int)
    requires LogsGrow(h, k) && AcksGrow(h, k) && Known(h, n, bound, commit) && bound <= bound2
    ensures Known(k, n, bound2, commit)
  {
    hide Chosen;
    if commit != 0 {
      var term, i :| Evidence(h, n, bound, commit, term, i);
      ChosenGrows(h, k, n, term, i);
      assert Evidence(k, n, bound2, commit, term, i);
    }
  }

  lemma CommittedGrows(h: History, k: History, n: nat, bound: int, bound2: int, commit: int, log: seq<LogEntry>)
    requires LogsGrow(h, k) && AcksGrow(h, k) && Committed(h, n, bound, commit, log) && bound <= bound2
    ensures Committed(k, n, bound2, commit, log)
  {
    hide Chosen;
    if commit != 0 {
      var term, i :| Evidence(h, n, bound, commit, term, i) && term in h.logs && Agree(log, h.logs[term], commit);
      ChosenGrows(h, k, n, term, i);
      assert Evidence(k, n, bound2, commit, term, i);
    }
  }

  lemma BlockedGrows(h: History, k: History, terms: seq<int>, later: seq<int>, term: int, i: int)
    requires Frozen(h, k, terms, later) && Blocked(h, terms, term, i)
    ensures Blocked(k, later, term, i)
  {
    var q :| IsQuorum(q, |terms|) && NoneWillAck(h, terms, q, term, i);
    assert NoneWillAck(k, later, q, term, i);
  }

  lemma SecureGrows(h: History, k: History, terms: seq<int>, later: seq<int>, term: int, i: int, log: seq<LogEntry>)
    requires Frozen(h, k, terms, later) && LogsGrow(h, k) && Secure(h, terms, term, i, log)
    ensures Secure(k, later, term, i, log)
  {
    hide Blocked, Frozen;
    if Blocked(h, terms, term, i) {
      BlockedGrows(h, k, terms, later, term, i);
    }
  }

  lemma PeerGrows(h: History, k: History, n: nat, actor: nat, id: nat, p: Peer)
    requires Grows(h, k, actor) && id != actor && PeerOk(h, n, id, p)
    ensures PeerOk(k, n, id, p)
  {
    hide GoodLog, Committed, AcksGrow;
    GoodLogGrows(h, k, p.log, p.term);
    CommittedGrows(h, k, n, p.term, p.term, p.commitIndex, p.log);
  }

  lemma JobGrows(h: History, k: History, n: nat, p: Peer, job: Job)
    requires LogsGrow(h, k) && AcksGrow(h, k) && JobOk(h, n, p, job)
    ensures JobOk(k, n, p, job)
  {
    hide Known;
    KnownGrows(h, k, n, job.term, job.term, job.commit);
  }

  lemma ServerGrows(h: History, k: History, n: nat, actor: nat, id: nat, s: Server)
    requires Grows(h, k, actor) && id != actor && ServerOk(h, n, id, s)
    ensures ServerOk(k, n, id, s)
  {
    hide PeerOk, JobOk, CountedOk, LogsGrow, AcksGrow;
    PeerGrows(h, k, n, actor, id, s.peer);
    forall j | j in s.jobs ensures JobOk(k, n, s.peer, j) {
      JobGrows(h, k, n, s.peer, j);
    }
    forall a | a in s.acks ensures CountedOk(k, n, id, a) {
      CountedGrows(h, k, n, id, a);
    }
  }

  lemma CountedGrows(h: History, k: History, n: nat, id: nat, ack: (Job, nat))
    requires LogsGrow(h, k) && AcksGrow(h, k) && CountedOk(h, n, id, ack)
    ensures CountedOk(k, n, id, ack)
  {
  }

  /** The peer moves on without shortening a log that its running jobs may read. */
  ghost predicate Advances(p: Peer, q: Peer) {
    && p.term <= q.term && p.lastApplied == q.lastApplied
    && (p.term == q.term && !q.role.Follower? ==> !p.role.Follower? && |p.log| <= |q.log|)
  }

  /** A server is in order again once its peer is. */
  lemma ServerFrom(h: History, k: History, n: nat, id: nat, s: Server, q: Peer)
    requires ServerOk(h, n, id, s) && PeerOk(k, n, id, q) && Advances(s.peer, q)
    requires LogsGrow(h, k) && AcksGrow(h, k) && h.granted <= k.granted && h.applied <= k.applied
    ensures ServerOk(k, n, id, s.(peer := q))
  {
    hide PeerOk, Known, CountedOk, LogsGrow, AcksGrow;
    forall j | j in s.jobs ensures JobOk(k, n, q, j) {
      assert JobOk(h, n, s.peer, j);
      JobGrows(h, k, n, s.peer, j);
    }
    forall a | a in s.acks ensures CountedOk(k, n, id, a) {
      CountedGrows(h, k, n, id, a);
    }
  }

  lemma AppendGrows(h: History, k: History, n: nat, actor: nat, a: AppendArgs)
    requires Grows(h, k, actor) && AppendOk(h, n, a)
    ensures AppendOk(k, n, a)
  {
    hide Known;
    KnownGrows(h, k, n, a.term, a.term, a.leaderCommit);
  }

  lemma MessagesGrow(c: Cluster, k: History, actor: nat)
    requires Grows(c.history, k, actor) && MessagesOk(c)
    ensures MessagesOk(c.(history := k))
  {
    hide AppendOk, LogsGrow, AcksGrow;
    var h, n := c.history, |c.servers|;
    forall m | m in c.appends ensures MessageOk(k, n, m) {
      assert MessageOk(h, n, m);
      AppendGrows(h, k, n, actor, m.args);
    }
    forall m | m in c.appendAnswers ensures AppendAnswerOk(k, n, m) {
      assert AppendAnswerOk(h, n, m);
      AnswerGrows(h, k, n, actor, m);
    }
  }

  lemma AnswerGrows(h: History, k: History, n: nat, actor: nat, a: AppendAnswer)
    requires Grows(h, k, actor) && AppendAnswerOk(h, n, a)
    ensures AppendAnswerOk(k, n, a)
  {
    hide AppendOk, LogsGrow;
    AppendGrows(h, k, n, actor, a.args);
  }
}
