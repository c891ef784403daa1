/** The handlers of a Raft peer as they update its fields in place. */
module RaftServer {
  import opened RaftPeer
  import opened RaftHandlers
  import RaftCluster

  class Raft {
    const me: nat
    const peers: nat
    var currentTerm: int
    var votedFor: int
    var role: Role
    var log: seq<LogEntry>
    var commitIndex: int
    var lastApplied: int
    var nextIndex: seq<int>
    var matchedIndex: seq<int>

    ghost function State(): Peer
      reads this
    {
      Peer(currentTerm, votedFor, log, role, commitIndex, lastApplied, nextIndex, matchedIndex)
    }

    ghost predicate Valid()
      reads this
    {
      |log| > 0
    }

    /** Saves the term, the vote and the log: all that a restart needs. */
    method Persist() returns (saved: (int, int, seq<LogEntry>))
      ensures Restart(State()) == FRESH_PEER.(term := saved.0, votedFor := saved.1, log := saved.2)
    {
      return (currentTerm, votedFor, log);
    }

    /** A peer made from what an earlier incarnation saved, if there was one. */
    constructor (me: nat, peers: nat, hasState: bool, saved: (int, int, seq<LogEntry>))
      requires hasState ==> |saved.2| > 0
      ensures Valid() && this.me == me && this.peers == peers && (!hasState ==> State() == FRESH_PEER)
      ensures forall p: Peer :: hasState && saved == (p.term, p.votedFor, p.log) ==> State() == Restart(p)
    {
      this.me, this.peers := me, peers;
      currentTerm, votedFor, role, commitIndex, lastApplied := 0, -1, Follower, 0, 0;
      nextIndex, matchedIndex := [], [];
      log := [SENTINEL];
      new;
      if hasState {
        currentTerm, votedFor, log := saved.0, saved.1, saved.2;
      }
    }

    method BecomeFollower(term: int, votedFor: int)
      requires Valid()
      modifies this
      ensures Valid() && State() == RaftPeer.BecomeFollower(old(State()), term, votedFor)
      ensures role == Follower && currentTerm == term && this.votedFor == votedFor && log == old(log)
    {
      role := Follower;
      currentTerm := term;
      this.votedFor := votedFor;
    }

    method BecomeCandidate(term: int)
      requires Valid() && term == currentTerm + 1
      modifies this
      ensures role == Candidate && currentTerm == old(currentTerm) + 1 && votedFor == me && log == old(log)
      ensures Valid() && State() == RaftPeer.BecomeCandidate(old(State()), me)
    {
      role := Candidate;
      currentTerm := term;
      votedFor := me;
    }

    method BecomeLeader()
      requires Valid()
      modifies this
      ensures Valid() && State() == RaftPeer.BecomeLeader(old(State()), peers)
      ensures role == Leader && |nextIndex| == |matchedIndex| == peers && log == old(log) && currentTerm == old(currentTerm)
      ensures forall i :: 0 <= i < peers ==> nextIndex[i] == |log| && matchedIndex[i] == 0
    {
      role := Leader;
      var next, matched, length := [], [], |log|;
      for i := 0 to peers
        invariant |next| == |matched| == i
        invariant forall k :: 0 <= k < i ==> next[k] == length && matched[k] == 0
      {
        next, matched := next + [length], matched + [0];
      }
      nextIndex, matchedIndex := next, matched;
    }

    method RequestVote(args: VoteArgs) returns (reply: VoteReply)
      requires Valid()
      modifies this
      ensures Valid() && (State(), reply) == RaftPeer.RequestVote(old(State()), args)
      ensures reply.term == old(currentTerm) && log == old(log)
      ensures reply.granted <==> !Outdated(old(State()), args) && !Taken(old(State()), args) && !Ahead(log, args)
      ensures reply.granted ==> votedFor == args.candidate && currentTerm == args.term
    {
      reply := VoteReply(currentTerm, false);
      if args.term < currentTerm {
        return;
      }
      if args.term > currentTerm {
        BecomeFollower(args.term, -1);
      }
      var last := log[|log| - 1];
      var upToDate := true;
      if args.lastLogTerm < last.term {
        upToDate := false;
      } else if args.lastLogTerm == last.term && args.lastLogIndex < last.index {
        upToDate := false;
      }
      if (votedFor == -1 || votedFor == args.candidate) && upToDate {
        reply := reply.(granted := true);
        votedFor := args.candidate;
      }
    }

    /** The scan for the first index of the conflicting term. */
    method ConflictIndex(prev: nat) returns (found: bool, index: int)
      requires Valid() && prev < |log|
      ensures found == (RunStart(log, prev) >= 0)
      ensures index == if found then log[RunStart(log, prev)].index else 0
    {
      var i: int := prev - 1;
      while i >= 0
        invariant -1 <= i < prev
        invariant forall k :: i < k <= prev ==> log[k].term == log[prev].term
        invariant RunStart(log, prev) == RunStart(log, i + 1)
      {
        if log[i].term != log[prev].term {
          return true, log[i + 1].index;
        }
        i := i - 1;
      }
      return false, 0;
    }

    /** The loop that looks for the first entry at odds with the leader's. */
    method FirstConflict(start: nat, entries: seq<LogEntry>) returns (flag: bool, j: nat)
      requires Valid() && start <= |log|
      ensures j == Agreement(log, start, entries)
      ensures flag == (j < |entries| && start + j < |log|)
    {
      j := 0;
      while start + j < |log| && j < |entries|
        invariant j <= |entries| && start + j <= |log|
        invariant Agreement(log, start, entries) == j + Agreement(log, start + j, entries[j..])
      {
        if log[start + j].term != entries[j].term {
          return true, j;
        }
        assert entries[j..][1..] == entries[j + 1..];
        j := j + 1;
      }
      return false, j;
    }

    method AppendEntries(args: AppendArgs) returns (reply: AppendReply)
      requires Valid()
      modifies this
      ensures Valid() && (State(), reply) == RaftPeer.AppendEntries(old(State()), args)
      ensures reply.success ==> TookOver(old(State()), args, log, commitIndex)
    {
      hide TookOver;
      reply := AppendReply(currentTerm, false, 0, 0, 0);
      if args.term < currentTerm {
        return;
      }
      BecomeFollower(args.term, args.leader);
      reply := reply.(xLen := |log|);
      var prev := args.prevLogIndex;
      var entries, start := [], 1;
      if prev > 0 {
        if prev > |log| - 1 {
          return;
        }
        if log[prev].term != args.prevLogTerm {
          reply := reply.(xTerm := log[prev].term);
          var found, index := ConflictIndex(prev);
          if found {
            reply := reply.(xIndex := index);
            return;
          }
        }
        entries, start := args.entries, prev + 1;
      } else if -prev < |args.entries| {
        entries := args.entries[-prev..];
      }
      assert start == StartOf(args) && entries == Payload(args);
      reply := reply.(success := true);
      TakeOver(args, start, entries);
      AppendTakesOver(old(State()), args);
    }

    /** The second half of AppendEntries, once the append has been accepted. */
    method TakeOver(args: AppendArgs, start: nat, payload: seq<LogEntry>)
      requires Valid() && Judge(log, args).Accepted?
      requires start == StartOf(args) && payload == Payload(args)
      modifies this
      ensures Valid() && State() == Accept(old(State()), args) && TookOver(old(State()), args, log, commitIndex)
    {
      hide TookOver, Agreement;
      AcceptTakesOver(old(State()), args);
      var entries := payload;
      var flag, j := FirstConflict(start, entries);
      assert !flag ==> j == Min(|log| - start, |entries|);
      if |args.entries| > 0 {
        if flag {
          log := log[..start + j];
          entries := entries[j..];
        } else {
          entries := entries[Min(|log| - start, |entries|)..];
        }
        log := log + entries;
      }
      assert entries == payload[j..] && log == Overwritten(old(log), start, payload);
      if args.leaderCommit > commitIndex {
        if |args.entries| > 0 && |entries| > 0 {
          commitIndex := Min(args.leaderCommit, entries[|entries| - 1].index);
        } else {
          commitIndex := Min(args.leaderCommit, args.prevLogIndex);
        }
      }
    }

    method Start(command: Command) returns (index: int, term: int, isLeader: bool)
      requires Valid()
      modifies this
      ensures Valid() && State() == RaftPeer.Start(old(State()), command)
      ensures index == |old(log)| && term == currentTerm && isLeader == role.Leader?
      ensures log == if isLeader then old(log) + [LogEntry(term, index, command)] else old(log)
    {
      index, term, isLeader := |log|, currentTerm, role.Leader?;
      if isLeader {
        log := log + [LogEntry(term, index, command)];
      }
    }

    /** The locked part of an election: the peer stands, and this is what it asks for. */
    method StandForElection() returns (args: VoteArgs)
      requires Valid()
      modifies this
      ensures Valid() && State() == RaftPeer.BecomeCandidate(old(State()), me)
      ensures args == VoteArgs(currentTerm, me, LastEntry(log).term, LastEntry(log).index)
    {
      BecomeCandidate(currentTerm + 1);
      var last := log[|log| - 1];
      return VoteArgs(currentTerm, me, last.term, last.index);
    }

    /** What a broadcast does with the answer of follower i; counted says it is one to count. */
    method AppendAnswered(i: nat, term: int, end: int, reply: AppendReply) returns (counted: bool)
      requires Valid() && i < |nextIndex| == |matchedIndex|
      modifies this
      ensures Valid() && counted == (old(currentTerm) == term && reply.term <= term && reply.success)
      ensures counted ==> nextIndex == old(nextIndex)[i := if old(nextIndex[i]) < end + 1 then end + 1 else old(nextIndex[i])]
      ensures State() ==
        if old(currentTerm) == term && reply.term > term then RaftPeer.BecomeFollower(old(State()), reply.term, -1)
        else if counted then RaftCluster.Matched(old(State()), i, end)
        else old(State())
    {
      counted := false;
      if currentTerm != term {
        return;
      }
      if reply.term > currentTerm {
        BecomeFollower(reply.term, -1);
        return;
      }
      if reply.success {
        if end + 1 > nextIndex[i] {
          nextIndex := nextIndex[i := end + 1];
          matchedIndex := matchedIndex[i := end];
        }
        counted := true;
      }
    }

    /** Takes the next committed entry off the log, if there is one. */
    method ApplyNext() returns (ready: bool, index: int, command: Command)
      requires Valid() && 0 <= lastApplied && commitIndex < |log|
      modifies this
      ensures Valid() && ready == (old(lastApplied) < commitIndex)
      ensures State() == old(State()).(lastApplied := old(lastApplied) + if ready then 1 else 0)
      ensures ready ==> index == log[old(lastApplied) + 1].index && command == log[old(lastApplied) + 1].command
    {
      ready, index, command := false, 0, 0;
      if lastApplied < commitIndex {
        lastApplied := lastApplied + 1;
        ready, index, command := true, log[lastApplied].index, log[lastApplied].command;
      }
    }
  }
}
