/** One Raft peer: the fields its mutex guards, and what each handler does to them. */
module RaftPeer {

  /** Commands are opaque to Raft. */
  type Command = int

  datatype Role = Follower | Candidate | Leader

  datatype LogEntry = LogEntry(term: int, index: int, command: Command)

  /** The entry every log begins with, so that indices start at 1. */
  const SENTINEL := LogEntry(0, 0, 0)

  datatype Peer = Peer(
    term: int, votedFor: int, log: seq<LogEntry>,
    role: Role, commitIndex: int, lastApplied: int, nextIndex: seq<int>, matchedIndex: seq<int>)

  datatype VoteArgs = VoteArgs(term: int, candidate: nat, lastLogTerm: int, lastLogIndex: int)

  datatype VoteReply = VoteReply(term: int, granted: bool)

  datatype AppendArgs = AppendArgs(
    term: int, leader: nat, prevLogIndex: int, prevLogTerm: int, entries: seq<LogEntry>, leaderCommit: int)

  datatype AppendReply = AppendReply(term: int, success: bool, xTerm: int, xIndex: int, xLen: int)

  function Min(a: int, b: int): int { if a < b then a else b }

  function LastEntry(log: seq<LogEntry>): LogEntry
    requires |log| > 0
  {
    log[|log| - 1]
  }

  const FRESH_PEER := Peer(0, -1, [SENTINEL], Follower, 0, 0, [], [])

  function BecomeFollower(p: Peer, term: int, votedFor: int): Peer {
    p.(role := Follower, term := term, votedFor := votedFor)
  }

  function BecomeCandidate(p: Peer, me: nat): Peer {
    p.(role := Candidate, term := p.term + 1, votedFor := me)
  }

  function BecomeLeader(p: Peer, n: nat): Peer {
    p.(role := Leader, nextIndex := seq(n, _ => |p.log|), matchedIndex := seq(n, _ => 0))
  }

  predicate IsUpToDate(log: seq<LogEntry>, term: int, index: int)
    requires |log| > 0
  {
    term > LastEntry(log).term || (term == LastEntry(log).term && index >= LastEntry(log).index)
  }

  function RequestVote(p: Peer, args: VoteArgs): (Peer, VoteReply)
    requires |p.log| > 0
  {
    if args.term < p.term then (p, VoteReply(p.term, false))
    else
      var q := if args.term > p.term then BecomeFollower(p, args.term, -1) else p;
      if (q.votedFor == -1 || q.votedFor == args.candidate) && IsUpToDate(q.log, args.lastLogTerm, args.lastLogIndex) then
        (q.(votedFor := args.candidate), VoteReply(p.term, true))
      else
        (q, VoteReply(p.term, false))
  }

  /** Where the run of equal terms ending at i begins, or -1 when it reaches the bottom. */
  function RunStart(log: seq<LogEntry>, i: nat): (r: int)
    requires i < |log|
    ensures r <= i && (r >= 0 ==> r > 0 && log[r - 1].term != log[i].term)
    ensures forall k :: 0 <= k <= i && r <= k ==> log[k].term == log[i].term
  {
    if i == 0 then -1
    else if log[i - 1].term != log[i].term then i
    else RunStart(log, i - 1)
  }

  /** How many of the entries, laid against the log from position start on, agree in term. */
  function Agreement(log: seq<LogEntry>, start: nat, entries: seq<LogEntry>): (j: nat)
    ensures j <= |entries| && (start <= |log| ==> start + j <= |log|)
    ensures forall k :: 0 <= k < j ==> start + k < |log| && log[start + k].term == entries[k].term
    ensures j < |entries| && start + j < |log| ==> log[start + j].term != entries[j].term
    decreases |entries|
  {
    if entries == [] || start >= |log| || log[start].term != entries[0].term then 0
    else 1 + Agreement(log, start + 1, entries[1..])
  }

  /** The log once the entries have been taken over from position start on: a conflicting
      suffix is replaced, and nothing is cut when there is no conflict. */
  function Overwritten(log: seq<LogEntry>, start: nat, entries: seq<LogEntry>): seq<LogEntry>
    requires start <= |log|
  {
    var j := Agreement(log, start, entries);
    if j == |entries| then log else log[..start + j] + entries[j..]
  }

  /** What a peer says to an append of its own or a later term. */
  datatype Answer = Accepted | TooShort | Mismatch(xTerm: int, xIndex: int)

  function Judge(log: seq<LogEntry>, args: AppendArgs): Answer {
    if args.prevLogIndex <= 0 then Accepted
    else if args.prevLogIndex >= |log| then TooShort
    else if log[args.prevLogIndex].term != args.prevLogTerm && RunStart(log, args.prevLogIndex) >= 0 then
      Mismatch(log[args.prevLogIndex].term, log[RunStart(log, args.prevLogIndex)].index)
    else Accepted
  }

  /** The position the entries go to. */
  function StartOf(args: AppendArgs): nat {
    if args.prevLogIndex > 0 then args.prevLogIndex + 1 else 1
  }

  /** The entries that remain when those at or below position 0 are dropped. */
  function Payload(args: AppendArgs): seq<LogEntry> {
    if args.prevLogIndex > 0 then args.entries
    else if -args.prevLogIndex < |args.entries| then args.entries[-args.prevLogIndex..] else []
  }

  /** The commit index after an accepted append, where rest is what was new in it. */
  function CommitAfter(commitIndex: int, args: AppendArgs, rest: seq<LogEntry>): int {
    if args.leaderCommit <= commitIndex then commitIndex
    else if |rest| > 0 then Min(args.leaderCommit, LastEntry(rest).index)
    else Min(args.leaderCommit, args.prevLogIndex)
  }

  function Accept(p: Peer, args: AppendArgs): Peer
    requires Judge(p.log, args).Accepted? && |p.log| > 0
  {
    var j := Agreement(p.log, StartOf(args), Payload(args));
    p.(log := Overwritten(p.log, StartOf(args), Payload(args)),
       commitIndex := CommitAfter(p.commitIndex, args, Payload(args)[j..]))
  }

  function AppendEntries(p: Peer, args: AppendArgs): (Peer, AppendReply)
    requires |p.log| > 0
  {
    if args.term < p.term then (p, AppendReply(p.term, false, 0, 0, 0))
    else
      var q := BecomeFollower(p, args.term, args.leader);
      match Judge(p.log, args)
      case TooShort => (q, AppendReply(p.term, false, 0, 0, |p.log|))
      case Mismatch(xTerm, xIndex) => (q, AppendReply(p.term, false, xTerm, xIndex, |p.log|))
      case Accepted => (Accept(q, args), AppendReply(p.term, true,
        if args.prevLogIndex > 0 && p.log[args.prevLogIndex].term != args.prevLogTerm then p.log[args.prevLogIndex].term else 0,
        0, |p.log|))
  }

  function Start(p: Peer, command: Command): Peer {
    if p.role.Leader? then p.(log := p.log + [LogEntry(p.term, |p.log|, command)]) else p
  }

  /** A peer comes back with what it persisted and nothing else. */
  function Restart(p: Peer): Peer {
    FRESH_PEER.(term := p.term, votedFor := p.votedFor, log := p.log)
  }
}
