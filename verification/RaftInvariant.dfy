/** What every reachable cluster satisfies. */
module RaftInvariant {
  import opened RaftPeer
  import opened RaftCluster

  ghost predicate IsQuorum(q: set<nat>, n: nat) {
    (forall m :: m in q ==> m < n) && 2 * |q| > n
  }

  /** Both logs reach position k and are the same up to it. */
  ghost predicate Agree(a: seq<LogEntry>, b: seq<LogEntry>, k: int) {
    0 <= k < |a| && k < |b| && a[..k + 1] == b[..k + 1]
  }

  /** The entries are those of the leader's log right after position prev. */
  ghost predicate Stretch(lead: seq<LogEntry>, prev: int, entries: seq<LogEntry>) {
    0 <= prev && prev + |entries| < |lead| && entries == lead[prev + 1..prev + 1 + |entries|]
  }

  /** The entry at k sits at its index and came, with all before it, from its term's leader. */
  ghost predicate EntryOk(h: History, log: seq<LogEntry>, k: nat)
    requires k < |log|
  {
    && log[k].index == k
    && (k > 0 ==> log[k].term > 0 && log[k].term in h.logs && Agree(log, h.logs[log[k].term], k))
  }

  ghost predicate SortedUpTo(log: seq<LogEntry>, term: int) {
    && (forall k :: 0 <= k < |log| ==> log[k].term <= term)
    && forall j, k :: 0 <= j <= k < |log| ==> log[j].term <= log[k].term
  }

  ghost predicate GoodLog(h: History, log: seq<LogEntry>, term: int) {
    && |log| > 0 && log[0] == SENTINEL
    && (forall k: nat :: k < |log| ==> EntryOk(h, log, k))
    && SortedUpTo(log, term)
  }

  /** Position i of the log of the leader of the term holds an entry of that very term. */
  ghost predicate OwnTerm(h: History, term: int, i: int) {
    term in h.logs && 0 <= i < |h.logs[term]| && h.logs[term][i].term == term
  }

  ghost predicate AllAcked(h: History, q: set<nat>, term: int, i: int) {
    forall m :: m in q ==> AckOf(h, m, term) >= i
  }

  /** A majority has acknowledged the entry, in its own term. */
  ghost predicate Chosen(h: History, n: nat, term: int, i: int) {
    OwnTerm(h, term, i) && exists q :: IsQuorum(q, n) && AllAcked(h, q, term, i)
  }

  ghost predicate NoneWillAck(h: History, terms: seq<int>, q: set<nat>, term: int, i: int) {
    forall m :: m in q && m < |terms| ==> terms[m] > term && AckOf(h, m, term) < i
  }

  /** A majority has moved past the term without acknowledging the entry: it will never be chosen. */
  ghost predicate Blocked(h: History, terms: seq<int>, term: int, i: int) {
    exists q :: IsQuorum(q, |terms|) && NoneWillAck(h, terms, q, term, i)
  }

  /** The log holds the entry, unless the entry can never be chosen. */
  ghost predicate Secure(h: History, terms: seq<int>, term: int, i: int, log: seq<LogEntry>) {
    term in h.logs && (Agree(log, h.logs[term], i) || Blocked(h, terms, term, i))
  }

  ghost predicate Evidence(h: History, n: nat, bound: int, commit: int, term: int, i: int) {
    Chosen(h, n, term, i) && commit <= i && term <= bound
  }

  /** Everything up to the commit index has been chosen, in a term up to the bound. */
  ghost predicate Known(h: History, n: nat, bound: int, commit: int) {
    commit >= 0 && (commit == 0 || exists term, i :: Evidence(h, n, bound, commit, term, i))
  }

  /** Everything up to the commit index has been chosen, and the log holds it. */
  ghost predicate Committed(h: History, n: nat, bound: int, commit: int, log: seq<LogEntry>) {
    && 0 <= commit < |log|
    && (commit == 0 || exists term, i :: Evidence(h, n, bound, commit, term, i) && term in h.logs && Agree(log, h.logs[term], commit))
  }

  // ---- history

  ghost predicate ElectionOk(h: History, n: nat, term: int)
    requires term in h.elected
  {
    var e := h.elected[term];
    && term > 0 && term in h.logs && IsQuorum(e.quorum, n) && e.leader in e.quorum
    && (forall q :: q in e.quorum ==> Grant(term, q, e.leader) in h.granted)
    && (forall g :: g in h.granted && g.term == term && g.voter in e.quorum ==> g.candidate == e.leader)
    && GoodLog(h, h.logs[term], term)
    && AckOf(h, e.leader, term) == |h.logs[term]| - 1
  }

  ghost predicate CandidacyOk(h: History, key: (int, nat))
    requires key in h.candidacies
  {
    GoodLog(h, h.candidacies[key], key.0 - 1) && Grant(key.0, key.1, key.1) in h.granted
  }

  ghost predicate GrantOk(h: History, n: nat, g: Grant) {
    && g.voter < n && g.candidate < n && (g.term, g.candidate) in h.candidacies
    && (g.term !in h.elected ==> forall f :: f in h.granted && f.term == g.term && f.voter == g.voter ==> f == g)
  }

  ghost predicate AckOk(h: History, n: nat, key: (nat, int))
    requires key in h.acked
  {
    key.0 < n && key.1 in h.logs && 0 <= h.acked[key] < |h.logs[key.1]|
  }

  ghost predicate AppliedOk(h: History, n: nat, a: Applied) {
    a.index > 0 && exists term, i :: Chosen(h, n, term, i) && a.index <= i && h.logs[term][a.index].command == a.command
  }

  ghost predicate HistoryOk(h: History, n: nat) {
    && h.logs.Keys == h.elected.Keys
    && (forall t :: t in h.elected ==> ElectionOk(h, n, t))
    && (forall k :: k in h.candidacies ==> CandidacyOk(h, k))
    && (forall g :: g in h.granted ==> GrantOk(h, n, g))
    && (forall k :: k in h.acked ==> AckOk(h, n, k))
    && (forall a :: a in h.applied ==> AppliedOk(h, n, a))
  }

  // ---- one server

  ghost predicate VotesOk(h: History, id: nat, p: Peer) {
    forall g :: g in h.granted && g.voter == id ==>
      && g.term <= p.term
      && (g.term == p.term && (p.term in h.elected ==> id in h.elected[p.term].quorum) ==> p.votedFor == g.candidate)
  }

  ghost predicate LeaderOk(h: History, n: nat, id: nat, p: Peer) {
    && p.term in h.elected && h.elected[p.term].leader == id
    && p.term in h.logs && p.log == h.logs[p.term]
    && |p.nextIndex| == |p.matchedIndex| == n
    && (forall q :: 0 <= q < n ==> 0 < p.nextIndex[q] <= |p.log|)
    && forall q, k :: 0 <= q < n && p.nextIndex[q] <= k < |p.log| ==> p.log[k].term == p.term
  }

  ghost predicate CandidateOk(h: History, id: nat, p: Peer) {
    && (p.term, id) in h.candidacies && p.log == h.candidacies[(p.term, id)]
    && (p.term in h.elected ==> h.elected[p.term].leader != id)
    && Grant(p.term, id, id) in h.granted
  }

  ghost predicate PeerOk(h: History, n: nat, id: nat, p: Peer) {
    && p.term >= 0
    && GoodLog(h, p.log, p.term)
    && VotesOk(h, id, p)
    && (p.role.Leader? ==> LeaderOk(h, n, id, p))
    && (p.role.Candidate? ==> CandidateOk(h, id, p))
    && Committed(h, n, p.term, p.commitIndex, p.log)
  }

  ghost predicate BallotOk(h: History, n: nat, id: nat, b: Ballot) {
    forall v :: v in b.voters ==> v < n && v != id && Grant(b.term, v, id) in h.granted
  }

  ghost predicate JobOk(h: History, n: nat, p: Peer, job: Job) {
    && Known(h, n, job.term, job.commit)
    && job.term <= p.term
    && (job.term == p.term && !p.role.Follower? ==> job.end < |p.log|)
  }

  ghost predicate CountedOk(h: History, n: nat, id: nat, ack: (Job, nat)) {
    && ack.1 < n && ack.1 != id
    && OwnTerm(h, ack.0.term, ack.0.end) && AckOf(h, ack.1, ack.0.term) >= ack.0.end
  }

  ghost predicate DeliveredOk(h: History, id: nat, s: Server) {
    && |s.delivered| == s.peer.lastApplied
    && forall k :: 0 <= k < |s.delivered| ==> s.delivered[k].0 == k + 1 && Applied(id, k + 1, s.delivered[k].1) in h.applied
  }

  ghost predicate ServerOk(h: History, n: nat, id: nat, s: Server) {
    && PeerOk(h, n, id, s.peer)
    && BallotOk(h, n, id, s.ballot)
    && (forall j :: j in s.jobs ==> JobOk(h, n, s.peer, j))
    && (forall a :: a in s.acks ==> CountedOk(h, n, id, a))
    && DeliveredOk(h, id, s)
  }

  // ---- messages

  ghost predicate VoteRequestOk(h: History, n: nat, a: VoteArgs) {
    && a.candidate < n && (a.term, a.candidate) in h.candidacies
    && var log := h.candidacies[(a.term, a.candidate)];
       |log| > 0 && a.lastLogTerm == LastEntry(log).term && a.lastLogIndex == LastEntry(log).index
  }

  ghost predicate VoteAnswerOk(h: History, n: nat, a: VoteAnswer) {
    && a.voter < n && a.voter != a.args.candidate
    && (a.reply.granted ==> Grant(a.args.term, a.voter, a.args.candidate) in h.granted)
  }

  ghost predicate AppendOk(h: History, n: nat, a: AppendArgs) {
    && a.term in h.elected && h.elected[a.term].leader == a.leader && a.term in h.logs
    && Stretch(h.logs[a.term], a.prevLogIndex, a.entries)
    && a.prevLogTerm == h.logs[a.term][a.prevLogIndex].term
    && (|a.entries| > 0 ==> OwnTerm(h, a.term, a.prevLogIndex + |a.entries|))
    && Known(h, n, a.term, a.leaderCommit)
  }

  ghost predicate MessageOk(h: History, n: nat, m: AppendMessage) {
    AppendOk(h, n, m.args) && m.to < n && m.to != m.args.leader
  }

  ghost predicate AppendAnswerOk(h: History, n: nat, a: AppendAnswer) {
    && AppendOk(h, n, a.args) && a.follower < n && a.follower != a.args.leader
    && (a.reply.success ==> AckOf(h, a.follower, a.args.term) >= a.args.prevLogIndex + |a.args.entries|)
  }

  ghost predicate MessagesOk(c: Cluster) {
    var h, n := c.history, |c.servers|;
    && (forall m :: m in c.voteRequests ==> VoteRequestOk(h, n, m))
    && (forall m :: m in c.voteAnswers ==> VoteAnswerOk(h, n, m))
    && (forall m :: m in c.appends ==> MessageOk(h, n, m))
    && (forall m :: m in c.appendAnswers ==> AppendAnswerOk(h, n, m))
  }

  // ---- what ties the servers together

  ghost function Terms(c: Cluster): (r: seq<int>)
    ensures |r| == |c.servers| && forall k :: 0 <= k < |r| ==> r[k] == c.servers[k].peer.term
  {
    seq(|c.servers|, k requires 0 <= k < |c.servers| => c.servers[k].peer.term)
  }

  /** The log holds every entry that q has acknowledged in a term below the bound and that
      may still be chosen. */
  ghost predicate HoldsAcked(h: History, terms: seq<int>, q: nat, bound: int, log: seq<LogEntry>) {
    forall t, i :: OwnTerm(h, t, i) && t < bound && AckOf(h, q, t) >= i ==> Secure(h, terms, t, i, log)
  }

  ghost predicate AcksHeld(h: History, terms: seq<int>, q: nat, p: Peer) {
    && (forall t :: AckOf(h, q, t) >= 0 ==> t <= p.term)
    && HoldsAcked(h, terms, q, p.term + 1, p.log)
  }

  ghost predicate GrantHeld(h: History, terms: seq<int>, g: Grant) {
    (g.term, g.candidate) in h.candidacies && HoldsAcked(h, terms, g.voter, g.term, h.candidacies[(g.term, g.candidate)])
  }

  /** The leader of term u holds every entry of an earlier term that may still be chosen. */
  ghost predicate LeaderHolds(h: History, terms: seq<int>, u: int)
    requires u in h.logs
  {
    forall t, i :: OwnTerm(h, t, i) && t < u ==> Secure(h, terms, t, i, h.logs[u])
  }

  ghost predicate CrossOk(h: History, terms: seq<int>, servers: seq<Server>) {
    && |terms| == |servers|
    && (forall k :: 0 <= k < |servers| ==> AcksHeld(h, terms, k, servers[k].peer))
    && (forall g :: g in h.granted ==> GrantHeld(h, terms, g))
    && (forall u :: u in h.logs ==> LeaderHolds(h, terms, u))
  }

  ghost predicate Inv(c: Cluster) {
    && HistoryOk(c.history, |c.servers|)
    && (forall k :: 0 <= k < |c.servers| ==> ServerOk(c.history, |c.servers|, k, c.servers[k]))
    && MessagesOk(c)
    && CrossOk(c.history, Terms(c), c.servers)
  }
}
