/** Exactly what a peer answers and does, for every input, said of its log and the message alone. */
module RaftHandlers {
  import opened RaftPeer

  // ---- votes

  /** The request comes from an earlier term. */
  predicate Outdated(p: Peer, args: VoteArgs) { args.term < p.term }

  /** In the request's own term the peer has voted for another. */
  predicate Taken(p: Peer, args: VoteArgs) {
    args.term == p.term && p.votedFor != -1 && p.votedFor != args.candidate
  }

  /** The peer's last entry has a later term than the candidate's, or the same and a greater index. */
  predicate Ahead(log: seq<LogEntry>, args: VoteArgs)
    requires |log| > 0
  {
    var last := log[|log| - 1];
    last.term > args.lastLogTerm || (last.term == args.lastLogTerm && last.index > args.lastLogIndex)
  }

  /** A vote is refused in exactly three cases. */
  lemma VoteGrantedIff(p: Peer, args: VoteArgs)
    requires |p.log| > 0
    ensures RequestVote(p, args).1.granted <==> !Outdated(p, args) && !Taken(p, args) && !Ahead(p.log, args)
  {
  }

  /** The answer carries the term the peer had; a later term makes it a follower without a vote;
      a granted vote is remembered; everything else stays. */
  lemma VoteLeaves(p: Peer, args: VoteArgs)
    requires |p.log| > 0
    ensures var (q, reply) := RequestVote(p, args);
      && reply.term == p.term && q.term == (if args.term > p.term then args.term else p.term)
      && q.role == (if args.term > p.term then Follower else p.role)
      && q.votedFor == (if reply.granted then args.candidate else if args.term > p.term then -1 else p.votedFor)
      && q.log == p.log && q.commitIndex == p.commitIndex && q.lastApplied == p.lastApplied
      && q.nextIndex == p.nextIndex && q.matchedIndex == p.matchedIndex
  {
  }

  // ---- appends, for every input

  /** The position the first entry goes to, and the entries that go anywhere. */
  function First(args: AppendArgs): nat { if args.prevLogIndex < 0 then 1 else args.prevLogIndex + 1 }

  function Usable(args: AppendArgs): seq<LogEntry> {
    if args.prevLogIndex >= 0 then args.entries
    else if |args.entries| <= -args.prevLogIndex then [] else args.entries[-args.prevLogIndex..]
  }

  predicate AtOdds(log: seq<LogEntry>, at: nat, entries: seq<LogEntry>, j: nat) {
    j < |entries| && at + j < |log| && log[at + j].term != entries[j].term
  }

  /** The log already has an entry of the same term in the place of each. */
  ghost predicate Has(log: seq<LogEntry>, at: nat, entries: seq<LogEntry>) {
    forall j: nat :: j < |entries| ==> at + j < |log| && log[at + j].term == entries[j].term
  }

  lemma HasAt(log: seq<LogEntry>, at: nat, entries: seq<LogEntry>, j: nat)
    requires Has(log, at, entries) && j < |entries|
    ensures at + j < |log| && log[at + j].term == entries[j].term
  {
    var e := entries[j];
  }

  lemma UsableIs(args: AppendArgs)
    ensures First(args) == StartOf(args) && Usable(args) == Payload(args)
  {
    if args.prevLogIndex == 0 { assert args.entries[0..] == args.entries; }
  }

  /** An append is taken exactly when its term is current and the previous entry is at or below
      the sentinel, or is there with the right term, or nothing below it has another term. */
  lemma AppendTakenIff(p: Peer, args: AppendArgs)
    requires |p.log| > 0
    ensures AppendEntries(p, args).1.success <==>
      && args.term >= p.term
      && (args.prevLogIndex <= 0
          || (args.prevLogIndex < |p.log|
              && (p.log[args.prevLogIndex].term == args.prevLogTerm
                  || forall k :: 0 <= k < args.prevLogIndex ==> p.log[k].term == p.log[args.prevLogIndex].term)))
  {
    var prev := args.prevLogIndex;
    if 0 < prev < |p.log| && RunStart(p.log, prev) >= 0 {
      assert p.log[RunStart(p.log, prev) - 1].term != p.log[prev].term;
    }
  }

  /** From the first entry at odds the log is replaced; with none at odds it is kept, and what
      reaches beyond it is added. */
  ghost predicate LogTakenOver(was: seq<LogEntry>, at: nat, entries: seq<LogEntry>, log: seq<LogEntry>) {
    && at <= |was|
    && (forall j: nat :: AtOdds(was, at, entries, j) && (forall i: nat :: i < j ==> !AtOdds(was, at, entries, i)) ==>
          log == was[..at + j] + entries[j..])
    && ((forall i: nat :: !AtOdds(was, at, entries, i)) ==>
          log == if at + |entries| <= |was| then was else was + entries[|was| - at..])
  }

  /** The commit index moves only for a leader further on: to the leader's or the last entry's,
      whichever is less, when some entry was new, and else to the leader's or the previous entry's. */
  ghost predicate CommitTakenOver(p: Peer, args: AppendArgs, commit: int) {
    if args.leaderCommit <= p.commitIndex then commit == p.commitIndex
    else if Has(p.log, First(args), Usable(args)) then commit == Min(args.leaderCommit, args.prevLogIndex)
    else Usable(args) != [] && commit == Min(args.leaderCommit, Usable(args)[|Usable(args)| - 1].index)
  }

  ghost predicate TookOver(p: Peer, args: AppendArgs, log: seq<LogEntry>, commit: int) {
    LogTakenOver(p.log, First(args), Usable(args), log) && CommitTakenOver(p, args, commit)
  }

  /** What an accepted append does. */
  lemma AcceptTakesOver(p: Peer, args: AppendArgs)
    requires |p.log| > 0 && Judge(p.log, args).Accepted?
    ensures TookOver(p, args, Accept(p, args).log, Accept(p, args).commitIndex)
  {
    AcceptedLog(p, args);
    AcceptedCommit(p, args);
  }

  lemma AppendTakesOver(p: Peer, args: AppendArgs)
    requires |p.log| > 0 && AppendEntries(p, args).1.success
    ensures TookOver(p, args, AppendEntries(p, args).0.log, AppendEntries(p, args).0.commitIndex)
  {
    hide TookOver, Accept;
    AcceptTakesOver(BecomeFollower(p, args.term, args.leader), args);
    SameTakeOver(BecomeFollower(p, args.term, args.leader), p, args);
  }

  lemma SameTakeOver(p: Peer, q: Peer, args: AppendArgs)
    requires p.log == q.log && p.commitIndex == q.commitIndex
    ensures forall log, commit :: TookOver(p, args, log, commit) <==> TookOver(q, args, log, commit)
  {
  }

  lemma AcceptedLog(p: Peer, args: AppendArgs)
    requires |p.log| > 0 && Judge(p.log, args).Accepted?
    ensures LogTakenOver(p.log, First(args), Usable(args), Accept(p, args).log)
  {
    UsableIs(args);
    var at, entries := First(args), Usable(args);
    var m := Agreement(p.log, at, entries);
    assert at <= |p.log|;
    forall i: nat | i < m ensures !AtOdds(p.log, at, entries, i) { }
    if m < |entries| && at + m < |p.log| {
      assert AtOdds(p.log, at, entries, m);
    } else if m < |entries| {
      assert p.log[..at + m] == p.log;
    }
  }

  lemma AcceptedCommit(p: Peer, args: AppendArgs)
    requires |p.log| > 0 && Judge(p.log, args).Accepted?
    ensures CommitTakenOver(p, args, Accept(p, args).commitIndex)
  {
    UsableIs(args);
    var at, entries := First(args), Usable(args);
    var m := Agreement(p.log, at, entries);
    if m < |entries| {
      if Has(p.log, at, entries) {
        HasAt(p.log, at, entries, m);
        assert false;
      }
      assert entries[m..][|entries| - m - 1] == entries[|entries| - 1];
    } else {
      assert Has(p.log, at, entries);
    }
  }

  /** Role, vote and term follow the sender unless it is outdated; a refusal touches nothing else,
      and tells the log's length and, if the previous place is taken, the term found there and the
      first index of its run. */
  lemma AppendLeaves(p: Peer, args: AppendArgs)
    requires |p.log| > 0
    ensures var (q, reply) := AppendEntries(p, args);
      && reply.term == p.term && q.lastApplied == p.lastApplied && q.nextIndex == p.nextIndex && q.matchedIndex == p.matchedIndex
      && (args.term < p.term ==> q == p && !reply.success)
      && (args.term >= p.term ==> q.term == args.term && q.role == Follower && q.votedFor == args.leader && reply.xLen == |p.log|)
      && (!reply.success ==> q.log == p.log && q.commitIndex == p.commitIndex)
      && (args.term >= p.term && !reply.success && args.prevLogIndex < |p.log| ==>
            exists x :: RunFrom(p.log, args.prevLogIndex, x) && reply.xTerm == p.log[x].term && reply.xIndex == p.log[x].index)
  {
    if args.term >= p.term && Judge(p.log, args).Mismatch? {
      assert RunFrom(p.log, args.prevLogIndex, RunStart(p.log, args.prevLogIndex));
    }
  }

  /** The run of equal terms that ends at prev begins at x, above the bottom. */
  ghost predicate RunFrom(log: seq<LogEntry>, prev: int, x: int) {
    0 < x <= prev < |log| && (forall k :: x <= k <= prev ==> log[k].term == log[prev].term) && log[x - 1].term != log[prev].term
  }
}
