/** What safety alone does not say: in a cluster of any size from two on, a command can get through.
    A leader is elected by just enough votes, the command is acknowledged by just enough peers, and
    the leader and a follower deliver it. */
module RaftProgress {
  import opened RaftPeer
  import opened RaftCluster

  ghost predicate Reached(n: nat, c: Cluster) {
    exists run :: IsRun(n, run) && run[|run| - 1] == c
  }

  lemma Extend(n: nat, c: Cluster, step: Step)
    requires Reached(n, c) && Enabled(c, step)
    ensures Reached(n, Next(c, step))
  {
    hide Enabled, Next;
    var run :| IsRun(n, run) && run[|run| - 1] == c;
    var more := run + [Next(c, step)];
    assert Follows(c, Next(c, step));
    forall k, l | 0 <= k && l == k + 1 && l < |more| ensures Follows(more[k], more[l]) {
      if l < |run| { assert Follows(run[k], run[l]); }
    }
    assert IsRun(n, more);
  }

  /** The peers 1, ..., j. */
  function Peers(j: nat): (r: set<nat>)
    ensures |r| == j && forall p: nat :: p in r <==> 1 <= p <= j
  {
    if j == 0 then {} else Peers(j - 1) + {j}
  }

  const REQUEST := VoteArgs(1, 0, 0, 0)

  /** A peer that has voted for peer 0 in term 1 and done nothing else. */
  const VOTER := FRESH_SERVER.(peer := FRESH_PEER.(term := 1, votedFor := 0))

  // ---- the election

  /** Peer 0 stands in term 1 and has the votes of the peers 1, ..., j. */
  ghost predicate Polling(n: nat, c: Cluster, j: nat) {
    && |c.servers| == n > j && REQUEST in c.voteRequests
    && c.servers[0] == FRESH_SERVER.(peer := FRESH_PEER.(term := 1, votedFor := 0, role := Candidate), ballot := Ballot(1, Peers(j)))
    && (forall i :: 1 <= i <= j ==> c.servers[i] == VOTER)
    && (forall i :: j < i < n ==> c.servers[i] == FRESH_SERVER)
  }

  lemma StandsFirst(n: nat) returns (c: Cluster)
    requires n > 0
    ensures Reached(n, c) && Polling(n, c, 0)
  {
    var start := Init(n);
    assert IsRun(n, [start]) && [start][0] == start;
    c := Next(start, StartElection(0));
    Extend(n, start, StartElection(0));
  }

  lemma GetsVote(n: nat, c: Cluster, j: nat)
    requires Polling(n, c, j) && j + 1 < n
    ensures Enabled(c, HandleVote(j + 1, REQUEST))
    ensures var d := Next(c, HandleVote(j + 1, REQUEST));
      && d.servers == c.servers[j + 1 := VOTER] && d.voteRequests == c.voteRequests
      && VoteAnswer(j + 1, REQUEST, VoteReply(0, true)) in d.voteAnswers
  {
    var s := c.servers[j + 1];
    assert RequestVote(s.peer, REQUEST) == (VOTER.peer, VoteReply(0, true));
    assert s.(peer := VOTER.peer) == VOTER;
    hide RequestVote;
  }

  lemma CountsVote(n: nat, c: Cluster, j: nat, answer: VoteAnswer)
    requires |c.servers| == n > 0 && answer in c.voteAnswers && answer == VoteAnswer(j + 1, REQUEST, VoteReply(0, true))
    requires c.servers[0].peer.term == 1 && |c.servers[0].peer.log| > 0 && c.servers[0].ballot == Ballot(1, Peers(j))
    ensures Enabled(c, ReceiveVote(0, answer))
    ensures var d := Next(c, ReceiveVote(0, answer));
      d.servers == c.servers[0 := c.servers[0].(ballot := Ballot(1, Peers(j + 1)))] && d.voteRequests == c.voteRequests
  {
    assert Peers(j) + {j + 1} == Peers(j + 1);
  }

  lemma OneMoreVote(n: nat, c: Cluster, j: nat) returns (d: Cluster)
    requires Reached(n, c) && Polling(n, c, j) && j + 1 < n
    ensures Reached(n, d) && Polling(n, d, j + 1)
  {
    hide Reached, Enabled, Next;
    GetsVote(n, c, j);
    var asked := Next(c, HandleVote(j + 1, REQUEST));
    Extend(n, c, HandleVote(j + 1, REQUEST));
    var answer := VoteAnswer(j + 1, REQUEST, VoteReply(0, true));
    CountsVote(n, asked, j, answer);
    d := Next(asked, ReceiveVote(0, answer));
    Extend(n, asked, ReceiveVote(0, answer));
  }

  lemma {:induction false} Polled(n: nat, j: nat) returns (c: Cluster)
    requires j < n
    ensures Reached(n, c) && Polling(n, c, j)
  {
    hide Reached, Polling;
    if j == 0 {
      c := StandsFirst(n);
    } else {
      c := Polled(n, j - 1);
      c := OneMoreVote(n, c, j - 1);
    }
  }

  // ---- the command

  function Entry(command: Command): LogEntry { LogEntry(1, 1, command) }

  const FIRST := Job(1, 1, 0)

  /** The leader, with the command in its log and the acknowledgements of the peers 1, ..., j. */
  ghost predicate Leading(n: nat, s: Server, command: Command, j: nat) {
    && s.peer.(nextIndex := [], matchedIndex := []) == FRESH_PEER.(term := 1, votedFor := 0, role := Leader, log := [SENTINEL, Entry(command)])
    && |s.peer.nextIndex| == |s.peer.matchedIndex| == n
    && (forall i :: 0 <= i < n ==> s.peer.nextIndex[i] == if 1 <= i <= j then 2 else 1)
    && FIRST in s.jobs && Ackers(s, FIRST) == Peers(j) && s.delivered == []
  }

  function Copied(command: Command): Server { VOTER.(peer := VOTER.peer.(log := [SENTINEL, Entry(command)])) }

  /** The peers up to m voted; those up to j have the command as well. */
  ghost predicate Spreading(n: nat, c: Cluster, command: Command, m: nat, j: nat) {
    && |c.servers| == n && j <= m < n && Leading(n, c.servers[0], command, j)
    && (forall i :: 1 <= i <= j ==> c.servers[i] == Copied(command))
    && (forall i :: j < i <= m ==> c.servers[i] == VOTER)
  }

  lemma Wins(n: nat, c: Cluster)
    requires n >= 2 && Polling(n, c, n / 2)
    ensures Enabled(c, TakeLead(0))
    ensures Next(c, TakeLead(0)).servers == c.servers[0 := c.servers[0].(peer := BecomeLeader(c.servers[0].peer, n))]
  {
    assert 1 in Peers(n / 2);
    hide BecomeLeader;
  }

  lemma IsGiven(c: Cluster, command: Command)
    requires |c.servers| > 0 && |c.servers[0].peer.log| > 0 && c.servers[0].peer.role.Leader?
    ensures Enabled(c, StartCommand(0, command))
    ensures Next(c, StartCommand(0, command)).servers == c.servers[0 := c.servers[0].(peer := Start(c.servers[0].peer, command))]
  {
  }

  lemma IsCaptured(c: Cluster)
    requires |c.servers| > 0 && |c.servers[0].peer.log| > 0
    ensures Enabled(c, Capture(0))
    ensures var s := c.servers[0];
      Next(c, Capture(0)).servers == c.servers[0 := s.(jobs := s.jobs + {Job(s.peer.term, |s.peer.log| - 1, s.peer.commitIndex)})]
  {
  }

  lemma TakesCommand(n: nat, command: Command) returns (c: Cluster)
    requires n >= 2
    ensures Reached(n, c) && Spreading(n, c, command, n / 2, 0)
  {
    hide Reached, Enabled, Next;
    var polled := Polled(n, n / 2);
    Wins(n, polled);
    var leading := Next(polled, TakeLead(0));
    Extend(n, polled, TakeLead(0));
    IsGiven(leading, command);
    var given := Next(leading, StartCommand(0, command));
    Extend(n, leading, StartCommand(0, command));
    IsCaptured(given);
    c := Next(given, Capture(0));
    Extend(n, given, Capture(0));
    assert Ackers(c.servers[0], FIRST) == {};
    assert c.servers[0].peer.log == [SENTINEL] + [Entry(command)];
  }

  function Carrying(command: Command): AppendArgs { AppendArgs(1, 0, 0, 0, [Entry(command)], 0) }

  lemma SendsIt(n: nat, c: Cluster, command: Command, m: nat, j: nat)
    requires Spreading(n, c, command, m, j) && j < m
    ensures Enabled(c, SendEntries(0, j + 1, FIRST, 1))
    ensures var d := Next(c, SendEntries(0, j + 1, FIRST, 1)); d.servers == c.servers && AppendMessage(j + 1, Carrying(command)) in d.appends
  {
    var log := c.servers[0].peer.log;
    assert log[1..2] == [Entry(command)];
  }

  lemma TakesIt(command: Command)
    ensures AppendEntries(VOTER.peer, Carrying(command)) == (Copied(command).peer, AppendReply(1, true, 0, 0, 1))
  {
    var log, entries := [SENTINEL], [Entry(command)];
    assert Payload(Carrying(command)) == entries;
    assert Agreement(log, 1, entries) == 0;
    assert entries[0..] == entries && log[..1] == log;
    assert log + entries == [SENTINEL, Entry(command)];
  }

  lemma HasIt(n: nat, c: Cluster, command: Command, m: nat, j: nat)
    requires Spreading(n, c, command, m, j) && j < m && AppendMessage(j + 1, Carrying(command)) in c.appends
    ensures Enabled(c, HandleAppend(j + 1, Carrying(command)))
    ensures var d := Next(c, HandleAppend(j + 1, Carrying(command)));
      && d.servers == c.servers[j + 1 := Copied(command)]
      && AppendAnswer(j + 1, Carrying(command), AppendReply(1, true, 0, 0, 1)) in d.appendAnswers
  {
    TakesIt(command);
    hide AppendEntries;
  }

  lemma CountsIt(n: nat, s: Server, command: Command, j: nat)
    requires Leading(n, s, command, j) && j + 1 < n
    ensures Leading(n, CountAck(s, AppendAnswer(j + 1, Carrying(command), AppendReply(1, true, 0, 0, 1)), FIRST), command, j + 1)
  {
    var d := CountAck(s, AppendAnswer(j + 1, Carrying(command), AppendReply(1, true, 0, 0, 1)), FIRST);
    assert d.acks == s.acks + {(FIRST, j + 1)};
    forall p: nat ensures p in Ackers(d, FIRST) <==> p in Peers(j + 1) {
      assert p in Ackers(s, FIRST) <==> (FIRST, p) in s.acks;
      assert p in Ackers(d, FIRST) <==> (FIRST, p) in d.acks;
    }
  }

  lemma OneMoreCopy(n: nat, c: Cluster, command: Command, m: nat, j: nat) returns (d: Cluster)
    requires Reached(n, c) && Spreading(n, c, command, m, j) && j < m
    ensures Reached(n, d) && Spreading(n, d, command, m, j + 1)
  {
    hide Reached, Leading, Enabled, Next;
    var answer := AppendAnswer(j + 1, Carrying(command), AppendReply(1, true, 0, 0, 1));
    SendsIt(n, c, command, m, j);
    var sent := Next(c, SendEntries(0, j + 1, FIRST, 1));
    Extend(n, c, SendEntries(0, j + 1, FIRST, 1));
    HasIt(n, sent, command, m, j);
    var held := Next(sent, HandleAppend(j + 1, Carrying(command)));
    Extend(n, sent, HandleAppend(j + 1, Carrying(command)));
    HearsBack(n, held, command, j, answer);
    d := Next(held, ReceiveAppend(0, answer, FIRST));
    Extend(n, held, ReceiveAppend(0, answer, FIRST));
    CountsIt(n, held.servers[0], command, j);
  }

  lemma HearsBack(n: nat, c: Cluster, command: Command, j: nat, answer: AppendAnswer)
    requires |c.servers| == n > 0 && Leading(n, c.servers[0], command, j) && answer in c.appendAnswers && answer.args == Carrying(command)
    ensures Enabled(c, ReceiveAppend(0, answer, FIRST))
    ensures Next(c, ReceiveAppend(0, answer, FIRST)).servers == c.servers[0 := CountAck(c.servers[0], answer, FIRST)]
  {
    hide CountAck;
  }

  lemma {:induction false} Spread(n: nat, command: Command, j: nat) returns (c: Cluster)
    requires n >= 2 && j <= n / 2
    ensures Reached(n, c) && Spreading(n, c, command, n / 2, j)
  {
    hide Reached, Spreading;
    if j == 0 {
      c := TakesCommand(n, command);
    } else {
      c := Spread(n, command, j - 1);
      c := OneMoreCopy(n, c, command, n / 2, j - 1);
    }
  }

  // ---- commitment

  lemma CommitsIt(n: nat, c: Cluster, command: Command)
    requires n >= 2 && Spreading(n, c, command, n / 2, n / 2)
    ensures Enabled(c, AdvanceCommit(0, FIRST))
    ensures var s := c.servers[0]; Next(c, AdvanceCommit(0, FIRST)).servers == c.servers[0 := s.(peer := s.peer.(commitIndex := 1))]
  {
    assert 1 in Peers(n / 2);
    hide Ackers;
  }

  lemma DeliversIt(c: Cluster, i: nat, command: Command)
    requires i < |c.servers| && c.servers[i].peer.log == [SENTINEL, Entry(command)]
    requires c.servers[i].peer.lastApplied == 0 && c.servers[i].peer.commitIndex == 1 && c.servers[i].delivered == []
    ensures Enabled(c, Deliver(i))
    ensures var s := c.servers[i];
      Next(c, Deliver(i)).servers == c.servers[i := s.(peer := s.peer.(lastApplied := 1), delivered := [(1, command)])]
  {
    assert c.servers[i].delivered + [(1, command)] == [(1, command)];
  }

  const SECOND := Job(1, 1, 1)

  const NEWS := AppendArgs(1, 0, 1, 1, [], 1)

  lemma TellsIt(c: Cluster, command: Command)
    requires |c.servers| > 1 && SECOND in c.servers[0].jobs
    requires var p := c.servers[0].peer;
      p.role.Leader? && p.term == 1 && p.log == [SENTINEL, Entry(command)] && |p.nextIndex| > 1 && p.nextIndex[1] == 2
    ensures Enabled(c, SendHeartbeat(0, 1, SECOND))
    ensures var d := Next(c, SendHeartbeat(0, 1, SECOND)); d.servers == c.servers && AppendMessage(1, NEWS) in d.appends
  {
  }

  lemma LearnsIt(c: Cluster, command: Command)
    requires |c.servers| > 1 && AppendMessage(1, NEWS) in c.appends && c.servers[1] == Copied(command)
    ensures Enabled(c, HandleAppend(1, NEWS))
    ensures Next(c, HandleAppend(1, NEWS)).servers == c.servers[1 := Informed(command)]
  {
    var p := Copied(command).peer;
    assert p.log[1].term == 1;
    assert Judge(p.log, NEWS).Accepted?;
    assert Agreement(p.log, 2, []) == 0;
    assert AppendEntries(p, NEWS).0 == Informed(command).peer;
    hide AppendEntries;
  }

  function Informed(command: Command): Server { VOTER.(peer := VOTER.peer.(log := [SENTINEL, Entry(command)], commitIndex := 1)) }

  /** With two peers or more, there is a run in which a command given to the leader is delivered by
      the leader and by another peer. */
  lemma CommandGetsThrough(n: nat, command: Command) returns (c: Cluster)
    requires n >= 2
    ensures Reached(n, c) && |c.servers| == n
    ensures c.servers[0].delivered == c.servers[1].delivered == [(1, command)]
  {
    hide Reached, Enabled, Next, Ackers;
    var acked := Spread(n, command, n / 2);
    CommitsIt(n, acked, command);
    var committed := Next(acked, AdvanceCommit(0, FIRST));
    Extend(n, acked, AdvanceCommit(0, FIRST));
    DeliversIt(committed, 0, command);
    var delivered := Next(committed, Deliver(0));
    Extend(n, committed, Deliver(0));
    IsCaptured(delivered);
    var captured := Next(delivered, Capture(0));
    Extend(n, delivered, Capture(0));
    TellsIt(captured, command);
    var told := Next(captured, SendHeartbeat(0, 1, SECOND));
    Extend(n, captured, SendHeartbeat(0, 1, SECOND));
    LearnsIt(told, command);
    var learned := Next(told, HandleAppend(1, NEWS));
    Extend(n, told, HandleAppend(1, NEWS));
    DeliversIt(learned, 1, command);
    c := Next(learned, Deliver(1));
    Extend(n, learned, Deliver(1));
  }
}
