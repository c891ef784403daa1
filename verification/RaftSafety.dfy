/** What holds over every run of the cluster, with messages lost, delayed and repeated, and
    peers restarting from what they persisted. */
module RaftSafety {
  import opened RaftPeer
  import opened RaftCluster
  import opened RaftInvariant
  import opened RaftGrowth
  import opened RaftLogs
  import opened RaftKeeps
  import opened RaftVoting
  import opened RaftReplication
  import opened RaftAppend
  import opened RaftCommit

  lemma InitInv(n: nat)
    ensures Inv(Init(n))
  {
    var c := Init(n);
    forall i | 0 <= i < n ensures ServerOk(c.history, n, i, c.servers[i]) {
      assert c.servers[i] == FRESH_SERVER;
    }
  }

  lemma StepInv(c: Cluster, step: Step)
    requires Inv(c) && Enabled(c, step)
    ensures Inv(Next(c, step))
  {
    hide Inv, Enabled, Next;
    match step
    case StartElection(i) => StartElectionKeeps(c, i);
    case HandleVote(i, args) => HandleVoteKeeps(c, i, args);
    case ReceiveVote(i, vote) => ReceiveVoteKeeps(c, i, vote);
    case TakeLead(i) => TakeLeadKeeps(c, i);
    case StartCommand(i, command) => StartCommandKeeps(c, i, command);
    case Capture(i) => CaptureKeeps(c, i);
    case SendEntries(i, to, job, start) => SendEntriesKeeps(c, i, to, job, start);
    case SendHeartbeat(i, to, job) => SendHeartbeatKeeps(c, i, to, job);
    case HandleAppend(i, args) => HandleAppendKeeps(c, i, args);
    case ReceiveAppend(i, answer, job) => ReceiveAppendKeeps(c, i, answer, job);
    case AdvanceCommit(i, job) => AdvanceCommitKeeps(c, i, job);
    case Deliver(i) => DeliverKeeps(c, i);
    case Crash(i) => CrashKeeps(c, i);
  }

  /** The invariant holds in every state of every run. */
  lemma {:induction false} RunInv(n: nat, run: seq<Cluster>, k: nat)
    requires IsRun(n, run) && k < |run|
    ensures Inv(run[k]) && |run[k].servers| == n
  {
    hide Inv, Next, Enabled;
    if k == 0 {
      InitInv(n);
    } else {
      RunInv(n, run, k - 1);
      assert Follows(run[k - 1], run[k]);
      var step :| Enabled(run[k - 1], step) && run[k] == Next(run[k - 1], step);
      StepInv(run[k - 1], step);
      SameSize(run[k - 1], step);
    }
  }

  lemma SameSize(c: Cluster, step: Step)
    requires Enabled(c, step)
    ensures |Next(c, step).servers| == |c.servers|
  {
    hide Moved, Told;
  }

  /** What a later history still knows of an earlier one. */
  ghost predicate Remembers(h: History, k: History) {
    && LogsGrow(h, k) && AcksGrow(h, k) && h.applied <= k.applied
    && (forall t :: t in h.elected ==> t in k.elected && h.elected[t] == k.elected[t])
    && forall c :: c in h.candidacies ==> c in k.candidacies && h.candidacies[c] == k.candidacies[c]
  }

  lemma GrowsRemembers(h: History, k: History, i: nat)
    requires Grows(h, k, i)
    ensures Remembers(h, k)
  {
  }

  ghost function After(c: Cluster, step: Step): History
    requires Enabled(c, step)
  {
    Told(c.history, c.servers[step.s], |c.servers|, step)
  }

  lemma StandRemembers(c: Cluster, i: nat)
    requires Inv(c) && Enabled(c, StartElection(i))
    ensures Remembers(c.history, After(c, StartElection(i)))
  {
    hide HistoryOk, ServerOk, MessagesOk, CrossOk, Grows, Remembers, VoteAdded, Consistent;
    var h, n, s, k := c.history, |c.servers|, c.servers[i], After(c, StartElection(i));
    CandidateServer(h, k, n, i, s);
    VoteAddedGrows(h, k, Grant(s.peer.term + 1, i, i));
    GrowsRemembers(h, k, i);
  }

  lemma LeadRemembers(c: Cluster, i: nat)
    requires Inv(c) && Enabled(c, TakeLead(i))
    ensures Remembers(c.history, After(c, TakeLead(i)))
  {
    hide HistoryOk, ServerOk, MessagesOk, CrossOk, Grows, Remembers;
    var h, n, s, k := c.history, |c.servers|, c.servers[i], After(c, TakeLead(i));
    WinsAlone(h, n, i, s);
    LeadGrows(h, k, n, i, s);
    GrowsRemembers(h, k, i);
  }

  lemma CommandRemembers(c: Cluster, i: nat, command: Command)
    requires Inv(c) && Enabled(c, StartCommand(i, command))
    ensures Remembers(c.history, After(c, StartCommand(i, command)))
  {
    hide HistoryOk, ServerOk, MessagesOk, CrossOk, Grows, Remembers, Appended;
    var h, n, s, k := c.history, |c.servers|, c.servers[i], After(c, StartCommand(i, command));
    CommandAppends(h, k, n, i, s, command);
    AppendedGrows(h, k, i, s.peer.term, command);
    GrowsRemembers(h, k, i);
  }

  lemma AppendRemembers(c: Cluster, i: nat, args: AppendArgs)
    requires Inv(c) && Enabled(c, HandleAppend(i, args))
    ensures Remembers(c.history, After(c, HandleAppend(i, args)))
  {
    hide HistoryOk, ServerOk, MessagesOk, CrossOk, Grows, AppendEntries, Acknowledged;
    var h, n, s, k := c.history, |c.servers|, c.servers[i], After(c, HandleAppend(i, args));
    if AppendEntries(s.peer, args).1.success {
      ToldAppend(h, s, n, i, args);
      AcknowledgedGrows(h, k, i, args);
      GrowsRemembers(h, k, i);
    }
  }

  lemma OtherRemembers(h: History, s: Server, n: nat, step: Step)
    requires |s.peer.log| > 0 && (step.Deliver? ==> 0 <= s.peer.lastApplied < |s.peer.log| - 1)
    requires !step.StartElection? && !step.TakeLead? && !step.StartCommand? && !step.HandleAppend?
    ensures Remembers(h, Told(h, s, n, step))
  {
    hide RequestVote;
  }

  lemma StepRemembers(c: Cluster, step: Step)
    requires Inv(c) && Enabled(c, step)
    ensures Remembers(c.history, After(c, step))
  {
    hide Inv, Told, Remembers;
    match step
    case StartElection(i) => StandRemembers(c, i);
    case TakeLead(i) => LeadRemembers(c, i);
    case StartCommand(i, command) => CommandRemembers(c, i, command);
    case HandleAppend(i, args) => AppendRemembers(c, i, args);
    case _ => OtherRemembers(c.history, c.servers[step.s], |c.servers|, step);
  }

  lemma NextTold(c: Cluster, step: Step)
    requires Enabled(c, step)
    ensures Next(c, step).history == After(c, step)
  {
    hide Told, Moved;
  }

  lemma RemembersTrans(a: History, b: History, c: History)
    requires Remembers(a, b) && Remembers(b, c)
    ensures Remembers(a, c)
  {
    forall q, t ensures AckOf(a, q, t) <= AckOf(c, q, t) {
      assert AckOf(a, q, t) <= AckOf(b, q, t);
    }
  }

  /** Nothing that happened is forgotten later in the run. */
  lemma {:induction false} RunRemembers(n: nat, run: seq<Cluster>, k: nat, l: nat)
    requires IsRun(n, run) && k <= l < |run|
    ensures Remembers(run[k].history, run[l].history)
    decreases l
  {
    hide Inv, Next, Enabled, After;
    if k < l {
      hide Remembers;
      RunRemembers(n, run, k, l - 1);
      RunInv(n, run, l - 1);
      assert Follows(run[l - 1], run[l]);
      var step :| Enabled(run[l - 1], step) && run[l] == Next(run[l - 1], step);
      StepRemembers(run[l - 1], step);
      NextTold(run[l - 1], step);
      RemembersTrans(run[k].history, run[l - 1].history, run[l].history);
    }
  }

  // ---- the theorems

  ghost predicate Visits(n: nat, run: seq<Cluster>, k: nat, i: nat) {
    IsRun(n, run) && k < |run| && i < n
  }

  /** Peer i in state k of a run. */
  ghost function At(n: nat, run: seq<Cluster>, k: nat, i: nat): Server
    requires Visits(n, run, k, i)
  {
    RunInv(n, run, k);
    run[k].servers[i]
  }

  lemma AtIsOk(n: nat, run: seq<Cluster>, k: nat, i: nat)
    requires Visits(n, run, k, i)
    ensures ServerOk(run[k].history, n, i, At(n, run, k, i)) && HistoryOk(run[k].history, n)
    ensures PeerOk(run[k].history, n, i, At(n, run, k, i).peer)
  {
    hide HistoryOk, PeerOk, MessagesOk, CrossOk;
    RunInv(n, run, k);
  }

  /** Each term has at most one leader in the whole run. */
  lemma ElectionSafety(n: nat, run: seq<Cluster>, k: nat, l: nat, i: nat, j: nat)
    requires Visits(n, run, k, i) && Visits(n, run, l, j)
    requires At(n, run, k, i).peer.role.Leader? && At(n, run, l, j).peer.role.Leader?
    requires At(n, run, k, i).peer.term == At(n, run, l, j).peer.term
    ensures i == j
  {
    AtIsOk(n, run, k, i);
    AtIsOk(n, run, l, j);
    hide HistoryOk, IsRun, GoodLog, Committed, VotesOk, JobOk, CountedOk;
    if k <= l { RunRemembers(n, run, k, l); } else { RunRemembers(n, run, l, k); }
  }

  lemma AtLog(n: nat, run: seq<Cluster>, k: nat, i: nat)
    requires Visits(n, run, k, i)
    ensures GoodLog(run[k].history, At(n, run, k, i).peer.log, At(n, run, k, i).peer.term)
  {
    AtIsOk(n, run, k, i);
    hide ServerOk;
  }

  lemma LaterLog(n: nat, run: seq<Cluster>, k: nat, l: nat, i: nat)
    requires Visits(n, run, k, i) && k <= l < |run|
    ensures GoodLog(run[l].history, At(n, run, k, i).peer.log, At(n, run, k, i).peer.term)
  {
    hide GoodLog, IsRun, At;
    AtLog(n, run, k, i);
    RunRemembers(n, run, k, l);
    GoodLogGrows(run[k].history, run[l].history, At(n, run, k, i).peer.log, At(n, run, k, i).peer.term);
  }

  /** Two logs, of any peers at any times, that hold entries of the same term at the same
      index are identical up to that index. */
  lemma LogMatching(n: nat, run: seq<Cluster>, k: nat, l: nat, i: nat, j: nat, x: nat)
    requires Visits(n, run, k, i) && Visits(n, run, l, j)
    requires var a, b := At(n, run, k, i).peer.log, At(n, run, l, j).peer.log; x < |a| && x < |b| && a[x].term == b[x].term
    ensures At(n, run, k, i).peer.log[..x + 1] == At(n, run, l, j).peer.log[..x + 1]
  {
    hide GoodLog, IsRun, At;
    var m := if k <= l then l else k;
    LaterLog(n, run, k, m, i);
    LaterLog(n, run, l, m, j);
    LogsMatch(run[m].history, At(n, run, k, i).peer.log, At(n, run, k, i).peer.term,
              At(n, run, l, j).peer.log, At(n, run, l, j).peer.term, x);
  }

  /** Every log begins with the sentinel, keeps entries at their index, and its terms never fall
      nor pass the peer's own. */
  lemma LogShape(n: nat, run: seq<Cluster>, k: nat, i: nat)
    requires Visits(n, run, k, i)
    ensures var log := At(n, run, k, i).peer.log;
      && |log| > 0 && log[0] == SENTINEL
      && (forall x :: 0 <= x < |log| ==> log[x].index == x && (x > 0 ==> 0 < log[x].term <= At(n, run, k, i).peer.term))
      && forall x, y :: 0 <= x <= y < |log| ==> log[x].term <= log[y].term
  {
    AtLog(n, run, k, i);
    hide IsRun;
    var log := At(n, run, k, i).peer.log;
    forall x: int | 0 <= x < |log| ensures log[x].index == x && (x > 0 ==> 0 < log[x].term) {
      assert EntryOk(run[k].history, log, x);
    }
  }

  /** Everything the log has up to x was chosen, in a term up to the bound. */
  ghost predicate Settled(h: History, n: nat, bound: int, log: seq<LogEntry>, x: int) {
    0 <= x < |log| && (x == 0 || exists t, y :: Evidence(h, n, bound, x, t, y) && t in h.logs && Agree(log, h.logs[t], x))
  }

  lemma CommittedSettles(h: History, k: History, n: nat, bound: int, commit: int, log: seq<LogEntry>, x: int)
    requires Committed(h, n, bound, commit, log) && LogsGrow(h, k) && AcksGrow(h, k) && 0 <= x <= commit
    ensures Settled(k, n, bound, log, x)
  {
    CommittedGrows(h, k, n, bound, bound, commit, log);
    hide Chosen, Agree, LogsGrow, AcksGrow;
    if x != 0 {
      var t, y :| Evidence(k, n, bound, commit, t, y) && t in k.logs && Agree(log, k.logs[t], commit);
      AgreeDown(log, k.logs[t], commit, x);
      assert Evidence(k, n, bound, x, t, y);
    }
  }

  /** What is committed somewhere stays chosen for the rest of the run. */
  lemma CommitSettles(n: nat, run: seq<Cluster>, k: nat, m: nat, i: nat, x: int)
    requires Visits(n, run, k, i) && k <= m < |run| && 0 <= x <= At(n, run, k, i).peer.commitIndex
    ensures Settled(run[m].history, n, At(n, run, k, i).peer.term, At(n, run, k, i).peer.log, x)
  {
    AtIsOk(n, run, k, i);
    RunRemembers(n, run, k, m);
    hide HistoryOk, ServerOk, IsRun, Committed, Settled, LogsGrow, AcksGrow;
    var p := At(n, run, k, i).peer;
    CommittedSettles(run[k].history, run[m].history, n, p.term, p.commitIndex, p.log, x);
  }

  lemma LeadersHold(n: nat, run: seq<Cluster>, m: nat)
    requires IsRun(n, run) && m < |run|
    ensures AllHeld(run[m].history, Terms(run[m]), n) && HistoryOk(run[m].history, n)
  {
    hide HistoryOk, ServerOk, MessagesOk, LeaderHolds, AcksHeld, GrantHeld;
    RunInv(n, run, m);
  }

  /** A leader of the term, or of a later one, has what was settled. */
  lemma SettledIsLed(h: History, n: nat, terms: seq<int>, bound: int, log: seq<LogEntry>, v: int, x: int, u: int)
    requires HistoryOk(h, n) && AllHeld(h, terms, n) && Settled(h, n, bound, log, x) && GoodLog(h, log, v) && bound <= u && u in h.logs
    ensures Agree(h.logs[u], log, x)
  {
    LeaderLogGood(h, n, u);
    hide Chosen, HistoryOk, LeaderHolds, Agree, GoodLog;
    var lead := h.logs[u];
    if x == 0 {
      FirstsAgree(h, lead, u, log, v);
    } else {
      var t, y :| Evidence(h, n, bound, x, t, y) && t in h.logs && Agree(log, h.logs[t], x);
      ChosenIsHeld(h, terms, t, y, u);
      AgreeDown(lead, h.logs[t], y, x);
      AgreeFlip(lead, h.logs[t], log, x);
    }
  }

  lemma FirstsAgree(h: History, a: seq<LogEntry>, s: int, b: seq<LogEntry>, t: int)
    requires GoodLog(h, a, s) && GoodLog(h, b, t)
    ensures Agree(a, b, 0)
  {
    assert a[..1] == [SENTINEL] == b[..1];
  }

  /** Leader completeness: what a peer has committed is in the log of every leader of its term
      or a later one, at that moment and ever after. */
  lemma LeaderCompleteness(n: nat, run: seq<Cluster>, k: nat, l: nat, i: nat, j: nat, x: nat)
    requires Visits(n, run, k, i) && Visits(n, run, l, j) && k <= l
    requires x <= At(n, run, k, i).peer.commitIndex
    requires At(n, run, l, j).peer.role.Leader? && At(n, run, k, i).peer.term <= At(n, run, l, j).peer.term
    ensures x < |At(n, run, k, i).peer.log| && x < |At(n, run, l, j).peer.log|
    ensures At(n, run, l, j).peer.log[..x + 1] == At(n, run, k, i).peer.log[..x + 1]
  {
    AtIsOk(n, run, l, j);
    hide HistoryOk, GoodLog, Committed, VotesOk, IsRun, JobOk, CountedOk, Settled, AllHeld;
    var p, q := At(n, run, k, i).peer, At(n, run, l, j).peer;
    LaterLog(n, run, k, l, i);
    CommitSettles(n, run, k, l, i, x);
    LeadersHold(n, run, l);
    assert LeaderOk(run[l].history, n, j, q);
    SettledIsLed(run[l].history, n, Terms(run[l]), p.term, p.log, p.term, x, q.term);
  }

  lemma SettledAgree(h: History, n: nat, terms: seq<int>, a: seq<LogEntry>, s: int, b: seq<LogEntry>, t: int, x: int)
    requires HistoryOk(h, n) && AllHeld(h, terms, n) && GoodLog(h, a, s) && GoodLog(h, b, t)
    requires Settled(h, n, s, a, x) && Settled(h, n, t, b, x)
    ensures Agree(a, b, x)
  {
    hide Chosen, HistoryOk, LeaderHolds, Agree, GoodLog;
    if x == 0 {
      FirstsAgree(h, a, s, b, t);
    } else {
      var u, y :| Evidence(h, n, s, x, u, y) && u in h.logs && Agree(a, h.logs[u], x);
      var w, z :| Evidence(h, n, t, x, w, z) && w in h.logs && Agree(b, h.logs[w], x);
      if u <= w {
        ChosenIsHeld(h, terms, u, y, w);
        AgreeDown(h.logs[w], h.logs[u], y, x);
        AgreeFlip(a, h.logs[u], h.logs[w], x);
        AgreeFlip(a, h.logs[w], b, x);
      } else {
        ChosenIsHeld(h, terms, w, z, u);
        AgreeDown(h.logs[u], h.logs[w], z, x);
        AgreeFlip(b, h.logs[w], h.logs[u], x);
        AgreeFlip(a, h.logs[u], b, x);
      }
    }
  }

  /** Two peers, at any two moments of the run, agree on what both have committed. */
  lemma CommittedAgree(n: nat, run: seq<Cluster>, k: nat, l: nat, i: nat, j: nat, x: nat)
    requires Visits(n, run, k, i) && Visits(n, run, l, j)
    requires x <= At(n, run, k, i).peer.commitIndex && x <= At(n, run, l, j).peer.commitIndex
    ensures x < |At(n, run, k, i).peer.log| && x < |At(n, run, l, j).peer.log|
    ensures At(n, run, k, i).peer.log[..x + 1] == At(n, run, l, j).peer.log[..x + 1]
  {
    hide GoodLog, IsRun, Settled, AllHeld, HistoryOk, At;
    var m := if k <= l then l else k;
    var p, q := At(n, run, k, i).peer, At(n, run, l, j).peer;
    LaterLog(n, run, k, m, i);
    LaterLog(n, run, l, m, j);
    CommitSettles(n, run, k, m, i, x);
    CommitSettles(n, run, l, m, j, x);
    LeadersHold(n, run, m);
    SettledAgree(run[m].history, n, Terms(run[m]), p.log, p.term, q.log, q.term, x);
  }

  lemma AppliedAgree(h: History, n: nat, terms: seq<int>, a: Applied, b: Applied)
    requires AllHeld(h, terms, n) && AppliedOk(h, n, a) && AppliedOk(h, n, b) && a.index == b.index
    ensures a.command == b.command
  {
    hide LeaderHolds;
    var u, y :| Chosen(h, n, u, y) && a.index <= y && h.logs[u][a.index].command == a.command;
    var w, z :| Chosen(h, n, w, z) && b.index <= z && h.logs[w][b.index].command == b.command;
    ChosenOwn(h, n, u, y);
    ChosenOwn(h, n, w, z);
    hide Agree, Chosen;
    if u <= w {
      ChosenIsHeld(h, terms, u, y, w);
      AgreeDown(h.logs[w], h.logs[u], y, a.index);
    } else {
      ChosenIsHeld(h, terms, w, z, u);
      AgreeDown(h.logs[u], h.logs[w], z, a.index);
    }
  }

  lemma DeliveredIsApplied(n: nat, run: seq<Cluster>, k: nat, m: nat, i: nat, x: nat)
    requires Visits(n, run, k, i) && k <= m < |run| && x < |At(n, run, k, i).delivered|
    ensures At(n, run, k, i).delivered[x].0 == x + 1
    ensures AppliedOk(run[m].history, n, Applied(i, x + 1, At(n, run, k, i).delivered[x].1))
  {
    AtIsOk(n, run, k, i);
    RunRemembers(n, run, k, m);
    LeadersHold(n, run, m);
    hide IsRun, PeerOk, BallotOk, JobOk, CountedOk, AppliedOk, ElectionOk, CandidacyOk, GrantOk, AckOk, AllHeld, LogsGrow, AcksGrow;
    assert Applied(i, x + 1, At(n, run, k, i).delivered[x].1) in run[m].history.applied;
  }

  /** State machine safety: no two peers, nor two lives of one peer, ever deliver different
      commands at the same index. */
  lemma StateMachineSafety(n: nat, run: seq<Cluster>, k: nat, l: nat, i: nat, j: nat, x: nat)
    requires Visits(n, run, k, i) && Visits(n, run, l, j)
    requires x < |At(n, run, k, i).delivered| && x < |At(n, run, l, j).delivered|
    ensures At(n, run, k, i).delivered[x] == At(n, run, l, j).delivered[x]
  {
    hide IsRun, AppliedOk, AllHeld, HistoryOk, At;
    var m := if k <= l then l else k;
    DeliveredIsApplied(n, run, k, m, i, x);
    DeliveredIsApplied(n, run, l, m, j, x);
    LeadersHold(n, run, m);
    AppliedAgree(run[m].history, n, Terms(run[m]), Applied(i, x + 1, At(n, run, k, i).delivered[x].1),
                 Applied(j, x + 1, At(n, run, l, j).delivered[x].1));
  }

  /** Apply discipline: between restarts a peer delivers 1, 2, 3, ... with no gap or repeat, and
      although the commit index may fall and the log may be cut, it always lies inside the log. */
  lemma ApplyDiscipline(n: nat, run: seq<Cluster>, k: nat, i: nat)
    requires Visits(n, run, k, i)
    ensures var s := At(n, run, k, i);
      && 0 <= s.peer.commitIndex < |s.peer.log|
      && |s.delivered| == s.peer.lastApplied
      && forall x :: 0 <= x < |s.delivered| ==> s.delivered[x].0 == x + 1
  {
    AtIsOk(n, run, k, i);
    hide IsRun, HistoryOk, GoodLog, VotesOk, LeaderOk, CandidateOk, BallotOk, JobOk, CountedOk, Evidence;
  }

  /** A leader's sends stay inside its log: the end that a broadcast of its term captured, and
      every next index. */
  lemma SendsInRange(n: nat, run: seq<Cluster>, k: nat, i: nat, job: Job)
    requires Visits(n, run, k, i) && At(n, run, k, i).peer.role.Leader?
    requires job in At(n, run, k, i).jobs && job.term == At(n, run, k, i).peer.term
    ensures var p := At(n, run, k, i).peer;
      job.end < |p.log| && |p.nextIndex| == n && forall q :: 0 <= q < n ==> 0 < p.nextIndex[q] <= |p.log|
  {
    AtIsOk(n, run, k, i);
    hide IsRun, HistoryOk, GoodLog, VotesOk, CandidateOk, BallotOk, CountedOk, Known, Committed;
    assert JobOk(run[k].history, n, At(n, run, k, i).peer, job);
  }
}
