/** A cluster of Raft peers as a state machine. Every step is one stretch of code that a peer
    runs under its mutex. Messages, once sent, stay available: each may be delivered never,
    late, or many times. */
module RaftCluster {
  import opened RaftPeer

  /** The votes an election's goroutine has counted so far. */
  datatype Ballot = Ballot(term: int, voters: set<nat>)

  /** What a broadcast or a heartbeat reads under the lock before it starts sending. */
  datatype Job = Job(term: int, end: int, commit: int)

  /** A peer with the state of its goroutines: the running election, the captured jobs, the
      acknowledgements counted for each, and what went down the apply channel. */
  datatype Server = Server(peer: Peer, ballot: Ballot, jobs: set<Job>, acks: set<(Job, nat)>, delivered: seq<(int, Command)>)

  datatype VoteAnswer = VoteAnswer(voter: nat, args: VoteArgs, reply: VoteReply)

  datatype AppendMessage = AppendMessage(to: nat, args: AppendArgs)

  datatype AppendAnswer = AppendAnswer(follower: nat, args: AppendArgs, reply: AppendReply)

  datatype Grant = Grant(term: int, voter: nat, candidate: nat)

  datatype Election = Election(leader: nat, quorum: set<nat>)

  datatype Applied = Applied(server: nat, index: int, command: Command)

  /** What has happened so far; no step reads it. */
  datatype History = History(
    granted: set<Grant>,                        // every vote ever granted
    elected: map<int, Election>,                // who won each term, and by whose votes
    logs: map<int, seq<LogEntry>>,              // the log of each term's leader, as far as it got
    candidacies: map<(int, nat), seq<LogEntry>>,  // the log each candidate stood with
    acked: map<(nat, int), int>,                // how far a peer acknowledged a term's leader
    applied: set<Applied>)                      // every command ever delivered

  datatype Cluster = Cluster(
    servers: seq<Server>, voteRequests: set<VoteArgs>, voteAnswers: set<VoteAnswer>,
    appends: set<AppendMessage>, appendAnswers: set<AppendAnswer>, history: History)

  const FRESH_SERVER := Server(FRESH_PEER, Ballot(0, {}), {}, {}, [])

  const NO_HISTORY := History({}, map[], map[], map[], map[], {})

  function Init(n: nat): Cluster {
    Cluster(seq(n, _ => FRESH_SERVER), {}, {}, {}, {}, NO_HISTORY)
  }

  datatype Step =
    | StartElection(s: nat)
    | HandleVote(s: nat, voteArgs: VoteArgs)
    | ReceiveVote(s: nat, vote: VoteAnswer)
    | TakeLead(s: nat)
    | StartCommand(s: nat, command: Command)
    | Capture(s: nat)
    | SendEntries(s: nat, to: nat, job: Job, start: int)
    | SendHeartbeat(s: nat, to: nat, job: Job)
    | HandleAppend(s: nat, args: AppendArgs)
    | ReceiveAppend(s: nat, answer: AppendAnswer, job: Job)
    | AdvanceCommit(s: nat, job: Job)
    | Deliver(s: nat)
    | Crash(s: nat)

  /** Enough distinct others; together with the peer itself they are a majority. */
  predicate Enough(voters: set<nat>, n: nat) {
    voters != {} && |voters| >= n / 2
  }

  function Ackers(s: Server, job: Job): set<nat> {
    set p | p in s.acks && p.0 == job :: p.1
  }

  predicate CanSendEntries(p: Peer, me: nat, to: nat, job: Job, start: int) {
    && p.role.Leader? && to != me
    && job.term == p.term                             // see the README: sends carry the current term
    && to < |p.nextIndex| && p.nextIndex[to] <= job.end
    && 0 < start <= job.end < |p.log|
  }

  predicate CanSendHeartbeat(p: Peer, me: nat, to: nat, job: Job) {
    && p.role.Leader? && to != me
    && job.term == p.term
    && to < |p.nextIndex| && 0 < p.nextIndex[to] <= |p.log|
  }

  predicate Enabled(c: Cluster, step: Step) {
    && step.s < |c.servers|
    && var s := c.servers[step.s];
       && |s.peer.log| > 0
       && match step
          case HandleVote(i, args) => args in c.voteRequests && args.candidate != i
          case ReceiveVote(i, vote) => vote in c.voteAnswers && vote.args.candidate == i
          case TakeLead(_) => s.peer.role.Candidate? && s.ballot.term == s.peer.term && Enough(s.ballot.voters, |c.servers|)
          case StartCommand(_, _) => s.peer.role.Leader?
          case SendEntries(i, to, job, start) => job in s.jobs && to < |c.servers| && CanSendEntries(s.peer, i, to, job, start)
          case SendHeartbeat(i, to, job) => job in s.jobs && to < |c.servers| && CanSendHeartbeat(s.peer, i, to, job)
          case HandleAppend(i, args) => AppendMessage(i, args) in c.appends
          case ReceiveAppend(i, answer, job) => answer in c.appendAnswers && answer.args.leader == i && Concerns(job, answer.args) && job in s.jobs
          case AdvanceCommit(_, job) => job in s.jobs && CanCommit(s, job, |c.servers|)
          case Deliver(_) => 0 <= s.peer.lastApplied < s.peer.commitIndex < |s.peer.log|
          case _ => true
  }

  /** The append was sent for the job. */
  predicate Concerns(job: Job, args: AppendArgs) {
    args.term == job.term && (|args.entries| > 0 ==> args.prevLogIndex + |args.entries| == job.end)
  }

  predicate CanCommit(s: Server, job: Job, n: nat) {
    s.peer.role.Leader? && s.peer.term == job.term && s.peer.commitIndex < job.end && Enough(Ackers(s, job), n)
  }

  function EntriesFor(p: Peer, me: nat, job: Job, start: int): AppendArgs
    requires 0 < start <= job.end < |p.log|
  {
    AppendArgs(job.term, me, p.log[start - 1].index, p.log[start - 1].term, p.log[start..job.end + 1], job.commit)
  }

  function HeartbeatFor(p: Peer, me: nat, to: nat, job: Job): AppendArgs
    requires to < |p.nextIndex| && 0 < p.nextIndex[to] <= |p.log|
  {
    var prev := p.log[p.nextIndex[to] - 1];
    AppendArgs(job.term, me, prev.index, prev.term, [], job.commit)
  }

  /** What a candidate does with the answer to its request. */
  function CountVote(s: Server, vote: VoteAnswer): Server {
    if vote.args.term != s.peer.term || vote.args.term != s.ballot.term then s
    else if vote.reply.term > s.peer.term then s.(peer := BecomeFollower(s.peer, vote.reply.term, -1))
    else if vote.reply.granted then s.(ballot := s.ballot.(voters := s.ballot.voters + {vote.voter}))
    else s
  }

  /** What a leader does with the answer to an append; a heartbeat's answer can only depose it. */
  function CountAck(s: Server, answer: AppendAnswer, job: Job): Server {
    if |answer.args.entries| > 0 && answer.args.term != s.peer.term then s
    else if answer.reply.term > s.peer.term then s.(peer := BecomeFollower(s.peer, answer.reply.term, -1))
    else if |answer.args.entries| > 0 && answer.reply.success then
      s.(peer := Matched(s.peer, answer.follower, job.end), acks := s.acks + {(job, answer.follower)})
    else s
  }

  function Matched(p: Peer, follower: nat, end: int): Peer {
    if follower < |p.nextIndex| && follower < |p.matchedIndex| && end + 1 > p.nextIndex[follower] then
      p.(nextIndex := p.nextIndex[follower := end + 1], matchedIndex := p.matchedIndex[follower := end])
    else p
  }

  function AckOf(h: History, q: nat, term: int): int {
    if (q, term) in h.acked then h.acked[(q, term)] else -1
  }

  function Ack(h: History, q: nat, term: int, i: int): History {
    h.(acked := h.acked[(q, term) := if AckOf(h, q, term) < i then i else AckOf(h, q, term)])
  }

  function Put(c: Cluster, i: nat, s: Server): Cluster
    requires i < |c.servers|
  {
    c.(servers := c.servers[i := s])
  }

  /** The server that takes the step, afterwards. */
  function Moved(s: Server, n: nat, step: Step): Server
    requires |s.peer.log| > 0
    requires step.Deliver? ==> 0 <= s.peer.lastApplied < |s.peer.log| - 1
  {
    match step
    case StartElection(i) => s.(peer := BecomeCandidate(s.peer, i), ballot := Ballot(s.peer.term + 1, {}))
    case HandleVote(_, args) => s.(peer := RequestVote(s.peer, args).0)
    case ReceiveVote(_, vote) => CountVote(s, vote)
    case TakeLead(_) => s.(peer := BecomeLeader(s.peer, n))
    case StartCommand(_, command) => s.(peer := Start(s.peer, command))
    case Capture(_) => s.(jobs := s.jobs + {Job(s.peer.term, |s.peer.log| - 1, s.peer.commitIndex)})
    case HandleAppend(_, args) => s.(peer := AppendEntries(s.peer, args).0)
    case ReceiveAppend(_, answer, job) => CountAck(s, answer, job)
    case AdvanceCommit(_, job) => s.(peer := s.peer.(commitIndex := job.end))
    case Deliver(_) =>
      var entry := s.peer.log[s.peer.lastApplied + 1];
      s.(peer := s.peer.(lastApplied := s.peer.lastApplied + 1), delivered := s.delivered + [(entry.index, entry.command)])
    case Crash(_) => FRESH_SERVER.(peer := Restart(s.peer))
    case _ => s
  }

  /** What the step adds to the history. */
  function Told(h: History, s: Server, n: nat, step: Step): History
    requires |s.peer.log| > 0
    requires step.Deliver? ==> 0 <= s.peer.lastApplied < |s.peer.log| - 1
  {
    var p := s.peer;
    match step
    case StartElection(i) =>
      h.(granted := h.granted + {Grant(p.term + 1, i, i)}, candidacies := h.candidacies[(p.term + 1, i) := p.log])
    case HandleVote(i, args) =>
      if RequestVote(p, args).1.granted then h.(granted := h.granted + {Grant(args.term, i, args.candidate)}) else h
    case TakeLead(i) =>
      Ack(h.(elected := h.elected[p.term := Election(i, s.ballot.voters + {i})], logs := h.logs[p.term := p.log]), i, p.term, |p.log| - 1)
    case StartCommand(i, command) => Ack(h.(logs := h.logs[p.term := Start(p, command).log]), i, p.term, |p.log|)
    case HandleAppend(i, args) =>
      if AppendEntries(p, args).1.success then Ack(h, i, args.term, args.prevLogIndex + |args.entries|) else h
    case Deliver(i) =>
      var entry := p.log[p.lastApplied + 1];
      h.(applied := h.applied + {Applied(i, entry.index, entry.command)})
    case _ => h
  }

  function Next(c: Cluster, step: Step): Cluster
    requires Enabled(c, step)
  {
    var i, n := step.s, |c.servers|;
    var s := c.servers[i];
    var d := Put(c, i, Moved(s, n, step)).(history := Told(c.history, s, n, step));
    match step
    case StartElection(_) =>
      d.(voteRequests := c.voteRequests + {VoteArgs(s.peer.term + 1, i, LastEntry(s.peer.log).term, LastEntry(s.peer.log).index)})
    case HandleVote(_, args) => d.(voteAnswers := c.voteAnswers + {VoteAnswer(i, args, RequestVote(s.peer, args).1)})
    case SendEntries(_, to, job, start) => d.(appends := c.appends + {AppendMessage(to, EntriesFor(s.peer, i, job, start))})
    case SendHeartbeat(_, to, job) => d.(appends := c.appends + {AppendMessage(to, HeartbeatFor(s.peer, i, to, job))})
    case HandleAppend(_, args) => d.(appendAnswers := c.appendAnswers + {AppendAnswer(i, args, AppendEntries(s.peer, args).1)})
    case _ => d
  }

  /** A run from the initial cluster of n peers. */
  ghost predicate IsRun(n: nat, run: seq<Cluster>) {
    && |run| > 0 && run[0] == Init(n)
    && forall k, l :: 0 <= k && l == k + 1 && l < |run| ==> Follows(run[k], run[l])
  }

  ghost predicate Follows(c: Cluster, d: Cluster) {
    exists step :: Enabled(c, step) && d == Next(c, step)
  }
}
