/** What a step has to show for the invariant to survive it; the rest follows from growth. */
module RaftKeeps {
  import opened RaftPeer
  import opened RaftCluster
  import opened RaftInvariant
  import opened RaftGrowth
  import opened RaftLogs

  /** An entry that the step adds under its own term belongs to the actor's term, only the
      actor has acknowledged it, and no later leader will ever have needed it. */
  ghost predicate NewOwnOk(h: History, k: History, terms: seq<int>, later: seq<int>, actor: nat)
    requires actor < |terms|
  {
    forall t, i :: OwnTerm(k, t, i) && !OwnTerm(h, t, i) ==>
      && terms[actor] <= t
      && (forall q :: q != actor ==> AckOf(k, q, t) < i)
      && (forall u :: u in k.logs && t < u ==> Blocked(k, later, t, i))
  }

  lemma HoldsAckedGrows(h: History, k: History, terms: seq<int>, later: seq<int>, actor: nat, q: nat, bound: int, log: seq<LogEntry>)
    requires Frozen(h, k, terms, later) && Grows(h, k, actor) && actor < |terms| && NewOwnOk(h, k, terms, later, actor)
    requires HoldsAcked(h, terms, q, bound, log)
    requires q != actor || bound <= terms[actor]
    ensures HoldsAcked(k, later, q, bound, log)
  {
    hide Secure, Blocked, LogsGrow, AcksGrow;
    forall t, i | OwnTerm(k, t, i) && t < bound && AckOf(k, q, t) >= i ensures Secure(k, later, t, i, log) {
      assert OwnTerm(h, t, i);
      assert AckOf(h, q, t) == AckOf(k, q, t);
      SecureGrows(h, k, terms, later, t, i, log);
    }
  }

  lemma SecureExtends(h: History, terms: seq<int>, t: int, i: int, log: seq<LogEntry>, more: seq<LogEntry>)
    requires Secure(h, terms, t, i, log) && log <= more
    ensures Secure(h, terms, t, i, more)
  {
  }

  lemma LeaderHoldsGrows(h: History, k: History, terms: seq<int>, later: seq<int>, actor: nat, u: int)
    requires Frozen(h, k, terms, later) && Grows(h, k, actor) && actor < |terms| && NewOwnOk(h, k, terms, later, actor)
    requires u in h.logs && LeaderHolds(h, terms, u)
    ensures u in k.logs && LeaderHolds(k, later, u)
  {
    hide Blocked, AcksGrow, Secure, Agree;
    assert LogsGrow(h, k);
    forall t, i | OwnTerm(k, t, i) && t < u ensures Secure(k, later, t, i, k.logs[u]) {
      if OwnTerm(h, t, i) {
        SecureGrows(h, k, terms, later, t, i, h.logs[u]);
        SecureExtends(k, later, t, i, h.logs[u], k.logs[u]);
      } else {
        assert Blocked(k, later, t, i);
        BlockedIsSecure(k, later, t, i, k.logs[u]);
      }
    }
  }

  lemma BlockedIsSecure(h: History, terms: seq<int>, t: int, i: int, log: seq<LogEntry>)
    requires t in h.logs && Blocked(h, terms, t, i)
    ensures Secure(h, terms, t, i, log)
  {
  }

  /** Every vote was granted in a term the voter has reached. */
  ghost predicate GrantsReached(h: History, terms: seq<int>) {
    forall g :: g in h.granted ==> g.voter < |terms| && g.term <= terms[g.voter]
  }

  lemma GrantHeldGrows(h: History, k: History, terms: seq<int>, later: seq<int>, actor: nat, g: Grant)
    requires Frozen(h, k, terms, later) && Grows(h, k, actor) && actor < |terms| && NewOwnOk(h, k, terms, later, actor)
    requires GrantHeld(h, terms, g) && g.voter < |terms| && g.term <= terms[g.voter]
    ensures GrantHeld(k, later, g)
  {
    hide HoldsAcked, LogsGrow, AcksGrow, NewOwnOk, Frozen;
    HoldsAckedGrows(h, k, terms, later, actor, g.voter, g.term, h.candidacies[(g.term, g.candidate)]);
  }

  lemma AcksHeldGrows(h: History, k: History, terms: seq<int>, later: seq<int>, actor: nat, q: nat, p: Peer)
    requires Frozen(h, k, terms, later) && Grows(h, k, actor) && actor < |terms| && NewOwnOk(h, k, terms, later, actor)
    requires AcksHeld(h, terms, q, p) && q != actor
    ensures AcksHeld(k, later, q, p)
  {
    hide HoldsAcked, LogsGrow, AcksGrow, NewOwnOk, Frozen;
    HoldsAckedGrows(h, k, terms, later, actor, q, p.term + 1, p.log);
    forall t | AckOf(k, q, t) >= 0 ensures t <= p.term {
      assert AckOf(h, q, t) == AckOf(k, q, t);
    }
  }

  /** What a step owes to the cross-server part of the invariant. */
  ghost predicate StepOwes(h: History, k: History, terms: seq<int>, later: seq<int>, actor: nat, p: Peer)
    requires actor < |terms|
  {
    && NewOwnOk(h, k, terms, later, actor)
    && AcksHeld(k, later, actor, p)
    && (forall g :: g in k.granted && g !in h.granted ==> GrantHeld(k, later, g))
    && (forall u :: u in k.logs && u !in h.logs ==> LeaderHolds(k, later, u))
  }

  lemma CrossGrows(h: History, k: History, terms: seq<int>, later: seq<int>, servers: seq<Server>, after: seq<Server>, actor: nat)
    requires CrossOk(h, terms, servers) && Grows(h, k, actor) && Frozen(h, k, terms, later) && GrantsReached(h, terms)
    requires actor < |terms| && |after| == |servers| && forall j :: 0 <= j < |servers| && j != actor ==> after[j] == servers[j]
    requires StepOwes(h, k, terms, later, actor, after[actor].peer)
    ensures CrossOk(k, later, after)
  {
    hide AcksHeld, GrantHeld, LeaderHolds, Grows, NewOwnOk;
    assert |terms| == |later|;
    hide Frozen;
    forall q | 0 <= q < |after| ensures AcksHeld(k, later, q, after[q].peer) {
      if q != actor {
        AcksHeldGrows(h, k, terms, later, actor, q, after[q].peer);
      }
    }
    forall g | g in k.granted ensures GrantHeld(k, later, g) {
      if g in h.granted {
        GrantHeldGrows(h, k, terms, later, actor, g);
      }
    }
    forall u | u in k.logs ensures LeaderHolds(k, later, u) {
      if u in h.logs {
        LeaderHoldsGrows(h, k, terms, later, actor, u);
      }
    }
  }

  lemma GrantsAreReached(c: Cluster)
    requires Inv(c)
    ensures GrantsReached(c.history, Terms(c))
  {
    hide GoodLog, Committed, JobOk, CountedOk, BallotOk, DeliveredOk, CrossOk, MessagesOk, ElectionOk, CandidacyOk, AckOk, AppliedOk, LeaderOk, CandidateOk;
    forall g | g in c.history.granted ensures g.voter < |Terms(c)| && g.term <= Terms(c)[g.voter] {
      assert GrantOk(c.history, |c.servers|, g);
      assert ServerOk(c.history, |c.servers|, g.voter, c.servers[g.voter]);
      assert VotesOk(c.history, g.voter, c.servers[g.voter].peer);
    }
  }

  /** Only the actor's server changes. */
  ghost predicate Alone(c: Cluster, d: Cluster, actor: nat) {
    && actor < |c.servers| == |d.servers|
    && forall j :: 0 <= j < |c.servers| && j != actor ==> d.servers[j] == c.servers[j]
  }

  /** The invariant survives a step that keeps its actor, its messages and its history in order. */
  lemma StepKeeps(c: Cluster, d: Cluster, actor: nat)
    requires Inv(c) && Alone(c, d, actor)
    requires Grows(c.history, d.history, actor) && Frozen(c.history, d.history, Terms(c), Terms(d))
    requires HistoryOk(d.history, |d.servers|)
    requires ServerOk(d.history, |d.servers|, actor, d.servers[actor])
    requires MessagesOk(d)
    requires StepOwes(c.history, d.history, Terms(c), Terms(d), actor, d.servers[actor].peer)
    ensures Inv(d)
  {
    hide Grows, Frozen, HistoryOk, ServerOk, MessagesOk, StepOwes, CrossOk;
    GrantsAreReached(c);
    hide GrantsReached;
    forall j | 0 <= j < |d.servers| ensures ServerOk(d.history, |d.servers|, j, d.servers[j]) {
      if j != actor {
        ServerGrows(c.history, d.history, |c.servers|, actor, j, c.servers[j]);
      }
    }
    CrossGrows(c.history, d.history, Terms(c), Terms(d), c.servers, d.servers, actor);
  }

  lemma QuietOwes(h: History, terms: seq<int>, later: seq<int>, actor: nat, p: Peer, q: Peer)
    requires actor < |terms| && AcksHeld(h, terms, actor, p) && q.log == p.log && p.term <= q.term
    requires Frozen(h, h, terms, later)
    ensures StepOwes(h, h, terms, later, actor, q)
  {
    hide Secure, Frozen;
    forall t, i | OwnTerm(h, t, i) && t < q.term + 1 && AckOf(h, actor, t) >= i ensures Secure(h, later, t, i, q.log) {
      assert Secure(h, terms, t, i, p.log);
      SecureGrows(h, h, terms, later, t, i, p.log);
    }
  }

  /** A step that tells the history nothing and leaves the log alone. */
  lemma QuietKeeps(c: Cluster, d: Cluster, actor: nat)
    requires Inv(c) && Alone(c, d, actor) && d.history == c.history
    requires d.servers[actor].peer.log == c.servers[actor].peer.log
    requires d.servers[actor].peer.term >= c.servers[actor].peer.term
    requires ServerOk(d.history, |d.servers|, actor, d.servers[actor]) && MessagesOk(d)
    ensures Inv(d)
  {
    hide HistoryOk, ServerOk, MessagesOk, AcksHeld, GrantHeld, LeaderHolds, StepOwes;
    QuietOwes(c.history, Terms(c), Terms(d), actor, c.servers[actor].peer, d.servers[actor].peer);
    StepKeeps(c, d, actor);
  }

  lemma AppliedGrows(h: History, k: History, n: nat, a: Applied)
    requires LogsGrow(h, k) && AcksGrow(h, k) && AppliedOk(h, n, a)
    ensures AppliedOk(k, n, a)
  {
    var term, i :| Chosen(h, n, term, i) && a.index <= i && h.logs[term][a.index].command == a.command;
    ChosenGrows(h, k, n, term, i);
    assert k.logs[term][a.index].command == a.command;
  }

  /** Only the acknowledgement of one peer in one term may differ. */
  ghost predicate AckedOnly(h: History, k: History, i: nat, u: int) {
    forall q, t :: q != i || t != u ==> AckOf(h, q, t) == AckOf(k, q, t)
  }

  lemma AckEffect(h: History, i: nat, u: int, m: int)
    ensures AckedOnly(h, Ack(h, i, u, m), i, u)
    ensures AckOf(Ack(h, i, u, m), i, u) == if AckOf(h, i, u) < m then m else AckOf(h, i, u)
    ensures Ack(h, i, u, m).acked.Keys == h.acked.Keys + {(i, u)}
  {
  }

  lemma AckElsewhere(g: History, h: History, k: History, i: nat, u: int)
    requires g.acked == h.acked && AckedOnly(h, k, i, u)
    ensures AckedOnly(g, k, i, u) && AckOf(g, i, u) == AckOf(h, i, u)
  {
    forall q, t | q != i || t != u ensures AckOf(g, q, t) == AckOf(k, q, t) {
      assert AckOf(h, q, t) == AckOf(k, q, t);
    }
  }

  lemma OtherAck(h: History, k: History, i: nat, u: int, q: nat, t: int)
    requires AckedOnly(h, k, i, u) && (q != i || t != u)
    ensures AckOf(h, q, t) == AckOf(k, q, t)
  {
  }

  lemma CandidacyGrows(h: History, k: History, c: (int, nat))
    requires LogsGrow(h, k) && h.granted <= k.granted && c in h.candidacies && c in k.candidacies && h.candidacies[c] == k.candidacies[c]
    requires CandidacyOk(h, c)
    ensures CandidacyOk(k, c)
  {
    hide GoodLog;
    GoodLogGrows(h, k, h.candidacies[c], c.0 - 1);
  }

  lemma GrantStays(h: History, k: History, n: nat, g: Grant)
    requires GrantOk(h, n, g) && h.granted == k.granted && h.candidacies == k.candidacies && forall t :: t in h.elected ==> t in k.elected
    ensures GrantOk(k, n, g)
  {
  }

  /** An acknowledgement other than the actor's in its term is an old one. */
  lemma AckStays(h: History, k: History, n: nat, i: nat, u: int, a: (nat, int))
    requires HistoryOk(h, n) && LogsGrow(h, k) && i < n && a in k.acked && AckedOnly(h, k, i, u)
    requires u in k.logs && 0 <= AckOf(k, i, u) < |k.logs[u]|
    requires a != (i, u) ==> a in h.acked
    ensures AckOk(k, n, a)
  {
    hide ElectionOk, CandidacyOk, GrantOk, AppliedOk;
    if a != (i, u) {
      assert AckOf(h, a.0, a.1) == AckOf(k, a.0, a.1);
      assert AckOk(h, n, a);
    }
  }

  lemma ElectionGrows(h: History, k: History, n: nat, i: nat, t: int)
    requires Grows(h, k, i) && k.granted == h.granted && t in h.elected && ElectionOk(h, n, t)
    requires k.logs[t] == h.logs[t] && AckOf(h, h.elected[t].leader, t) == AckOf(k, h.elected[t].leader, t)
    ensures ElectionOk(k, n, t)
  {
    hide GoodLog, IsQuorum, AcksGrow;
    GoodLogGrows(h, k, h.logs[t], t);
  }

  /** A step that grants no vote and changes at most one acknowledgement keeps the history in
      order as soon as it keeps the elections so. */
  lemma HistoryFrom(h: History, k: History, n: nat, i: nat, u: int)
    requires HistoryOk(h, n) && Grows(h, k, i) && i < n && AckedOnly(h, k, i, u)
    requires k.granted == h.granted && k.candidacies == h.candidacies && k.applied == h.applied
    requires k.logs.Keys == k.elected.Keys && forall t :: t in k.elected ==> ElectionOk(k, n, t)
    requires u in k.logs && 0 <= AckOf(k, i, u) < |k.logs[u]| && k.acked.Keys <= h.acked.Keys + {(i, u)}
    ensures HistoryOk(k, n)
  {
    hide ElectionOk, GoodLog, AppliedOk, AcksGrow, LogsGrow, AckedOnly, GrantOk, CandidacyOk, AckOk;
    forall c | c in k.candidacies ensures CandidacyOk(k, c) { CandidacyGrows(h, k, c); }
    forall a | a in k.applied ensures AppliedOk(k, n, a) { AppliedGrows(h, k, n, a); }
    forall g | g in k.granted ensures GrantOk(k, n, g) { GrantStays(h, k, n, g); }
    forall a | a in k.acked ensures AckOk(k, n, a) { AckStays(h, k, n, i, u, a); }
  }
}
