/**
 * Leader Completeness: over every run without restarts, whatever followers report, an entry that a
 * majority has had in step with its leader is in the log every later leader starts from.
 */
module RaftCompleteness {
  import opened Basics
  import opened Raft
  import E = RaftElection
  import M = RaftMatching
  import S = RaftStanding

  // ---- Acknowledgements --------------------------------------------------

  /** Server n has been in step with the leader of term t up to index k. */
  ghost predicate Acked(h: History, n: Id, t: Term, k: nat) {
    (n, t) in h.acks && k <= h.acks[(n, t)]
  }

  /** The first k entries of the log of the leader of term t. */
  ghost function Prefix(h: History, t: Term, k: nat): seq<Entry> {
    if t in h.termLogs && k <= |h.termLogs[t]| then h.termLogs[t][..k] else []
  }

  /** Some leader of a term after t, up to `upto`, started without those k entries. */
  ghost predicate Overruled(h: History, t: Term, k: nat, upto: Term) {
    exists u :: t < u <= upto && u in h.startLogs && !(Prefix(h, t, k) <= h.startLogs[u])
  }

  ghost predicate AcksKnown(h: History) {
    forall n: Id, t: Term, k: nat :: Acked(h, n, t, k) ==> t in h.termLogs && k <= |h.termLogs[t]|
  }

  /** What a server acknowledged it still has, unless a later leader overruled it. */
  ghost predicate AckHeld(n: Id, s: Server, h: History) {
    forall t: Term, k: nat :: Acked(h, n, t, k) ==>
      t <= s.term && (Prefix(h, t, k) <= s.log || Overruled(h, t, k, s.term))
  }

  /** The ballot of n in term u counts, or may still count, towards the election of that term. */
  ghost predicate Electing(h: History, n: Id, u: Term) {
    u in h.leaders ==> u in h.electors && n in h.electors[u]
  }

  /** What a server had acknowledged before voting was in its log when it voted, unless overruled. */
  ghost predicate VoteHeld(n: Id, h: History) {
    forall t: Term, k: nat, u: Term :: Acked(h, n, t, k) && (n, u) in h.ballots && t < u && Electing(h, n, u) ==>
      (n, u) in h.voteLogs && (Prefix(h, t, k) <= h.voteLogs[(n, u)] || Overruled(h, t, k, u - 1))
  }

  /** A leader is in step with itself. */
  ghost predicate LeaderOk(n: Id, s: Server, h: History) {
    s.role.Leader? ==> Acked(h, n, s.term, |s.log|)
  }

  ghost predicate ServerAcksOk(n: Id, s: Server, h: History) {
    AckHeld(n, s, h) && VoteHeld(n, h) && LeaderOk(n, s, h)
  }

  ghost predicate AckInv(c: Cluster) {
    && AcksKnown(c.h)
    && (forall n :: 0 <= n < |c.servers| ==> ServerAcksOk(n, c.servers[n], c.h))
  }

  // ---- Growth ------------------------------------------------------------

  ghost predicate Grows(h: History, h': History, n: Id) {
    && S.Grows(h, h', n)
    && (forall t :: t in h.leaders && t in h.electors ==> t in h'.electors && h'.electors[t] == h.electors[t])
    && AcksGrow(h, h', n)
  }

  lemma PrefixStays(h: History, h': History, t: Term, k: nat)
    requires M.Extends(h, h') && t in h.termLogs && k <= |h.termLogs[t]|
    ensures Prefix(h', t, k) == Prefix(h, t, k)
  {
    assert h.termLogs[t] <= h'.termLogs[t];
  }

  lemma OverruledStays(h: History, h': History, t: Term, k: nat, upto: Term, later: Term)
    requires M.Extends(h, h') && t in h.termLogs && k <= |h.termLogs[t]| && upto <= later
    requires Overruled(h, t, k, upto)
    ensures Overruled(h', t, k, later)
  {
    PrefixStays(h, h', t, k);
    var u :| t < u <= upto && u in h.startLogs && !(Prefix(h, t, k) <= h.startLogs[u]);
    assert u in h'.startLogs && h'.startLogs[u] == h.startLogs[u];
  }

  /** A server that does not move keeps what it acknowledged, whatever others record. */
  lemma AckHeldStays(m: Id, s: Server, h: History, h': History, n: Id)
    requires AcksKnown(h) && AckHeld(m, s, h) && Grows(h, h', n) && m != n
    ensures AckHeld(m, s, h')
  {
    forall t: Term, k: nat | Acked(h', m, t, k)
      ensures t <= s.term && (Prefix(h', t, k) <= s.log || Overruled(h', t, k, s.term))
    {
      assert Acked(h, m, t, k);
      PrefixStays(h, h', t, k);
      if Overruled(h, t, k, s.term) {
        OverruledStays(h, h', t, k, s.term, s.term);
      }
    }
  }

  /** Ballots cast so far stay backed, for the acknowledgements made so far. */
  lemma VoteHeldStays(m: Id, h: History, h': History, n: Id, t: Term, k: nat, u: Term)
    requires AcksKnown(h) && VoteHeld(m, h) && Grows(h, h', n)
    requires Acked(h, m, t, k) && (m, u) in h.ballots && t < u && Electing(h', m, u)
    requires forall v :: v in h.leaders ==> v in h.electors
    ensures (m, u) in h'.voteLogs && (Prefix(h', t, k) <= h'.voteLogs[(m, u)] || Overruled(h', t, k, u - 1))
  {
    assert Electing(h, m, u);
    PrefixStays(h, h', t, k);
    assert h'.voteLogs[(m, u)] == h.voteLogs[(m, u)];
    if Overruled(h, t, k, u - 1) {
      OverruledStays(h, h', t, k, u - 1, u - 1);
    }
  }

  lemma OthersStay(m: Id, s: Server, h: History, h': History, n: Id)
    requires AcksKnown(h) && ServerAcksOk(m, s, h) && Grows(h, h', n) && m != n
    requires forall k :: k in h.leaders ==> k in h.electors
    ensures ServerAcksOk(m, s, h')
  {
    AckHeldStays(m, s, h, h', n);
    forall t: Term, k: nat, u: Term | Acked(h', m, t, k) && (m, u) in h'.ballots && t < u && Electing(h', m, u)
      ensures (m, u) in h'.voteLogs && (Prefix(h', t, k) <= h'.voteLogs[(m, u)] || Overruled(h', t, k, u - 1))
    {
      assert Acked(h, m, t, k) && (m, u).0 != n && (m, u) in h.ballots;
      VoteHeldStays(m, h, h', n, t, k, u);
    }
  }

  lemma StepAcks(c: Cluster, c': Cluster, n: Id)
    requires AckInv(c) && n < |c.servers| && |c'.servers| == |c.servers|
    requires forall m :: 0 <= m < |c.servers| && m != n ==> c'.servers[m] == c.servers[m]
    requires Grows(c.h, c'.h, n) && AcksKnown(c'.h)
    requires forall k :: k in c.h.leaders ==> k in c.h.electors
    requires ServerAcksOk(n, c'.servers[n], c'.h)
    ensures AckInv(c')
  {
    forall m | 0 <= m < |c.servers| ensures ServerAcksOk(m, c'.servers[m], c'.h) {
      if m != n {
        OthersStay(m, c.servers[m], c.h, c'.h, n);
      }
    }
  }

  // ---- Elections ---------------------------------------------------------

  /** Only acknowledgements of server n grow. */
  ghost predicate AcksGrow(h: History, h': History, n: Id) {
    && (forall m: Id, t: Term, k: nat :: Acked(h, m, t, k) ==> Acked(h', m, t, k))
    && (forall m: Id, t: Term, k: nat :: Acked(h', m, t, k) ==> Acked(h, m, t, k) || m == n)
  }

  lemma AckUpdate(h: History, h': History, n: Id, t: Term, k: nat)
    requires h'.acks == h.acks[(n, t) := k] && !Acked(h, n, t, k + 1)
    ensures AcksGrow(h, h', n)
    ensures forall m: Id, u: Term, i: nat :: Acked(h', m, u, i) ==> Acked(h, m, u, i) || (m == n && u == t && i <= k)
  {
    assert (n, t) in h.acks ==> h.acks[(n, t)] <= k;
  }

  lemma AcksKnownAfter(h: History, h': History, n: Id, t: Term, k: nat)
    requires AcksKnown(h) && M.Extends(h, h')
    requires h'.acks == h.acks[(n, t) := k] && !Acked(h, n, t, k + 1)
    requires t in h'.termLogs && k <= |h'.termLogs[t]|
    ensures AcksKnown(h')
  {
    AckUpdate(h, h', n, t, k);
    forall m: Id, u: Term, i: nat | Acked(h', m, u, i) ensures u in h'.termLogs && i <= |h'.termLogs[u]| {
      if Acked(h, m, u, i) {
        assert h.termLogs[u] <= h'.termLogs[u];
      }
    }
  }

  lemma AcksKnownSame(h: History, h': History, n: Id)
    requires AcksKnown(h) && h'.acks == h.acks && h'.termLogs == h.termLogs
    ensures AcksKnown(h') && AcksGrow(h, h', n)
  {
    assert forall m: Id, u: Term, i: nat :: Acked(h', m, u, i) <==> Acked(h, m, u, i);
  }

  /** Becoming leader acknowledges the leader's own log, in a term nobody has acknowledged before. */
  lemma ElectionGrows(n: Id, s: Server, h: History, size: nat, full: bool)
    requires h.termLogs.Keys == h.startLogs.Keys == h.leaders.Keys && AcksKnown(h)
    requires S.CandidateOk(n, s, h) && s.role.Candidate?
    requires |s.votes| >= Majority(size) && s.term !in h.leaders
    ensures var h' := Election(h, n, s, Lead(s, full));
      Grows(h, h', n) && AcksKnown(h')
  {
    var after := Lead(s, full);
    var h' := Election(h, n, s, after);
    S.ElectionGrows(n, s, h, size, full);
    assert !Acked(h, n, s.term, |after.log| + 1);
    AckUpdate(h, h', n, s.term, |after.log|);
    AcksKnownAfter(h, h', n, s.term, |after.log|);
  }

  lemma ElectionAcks(n: Id, s: Server, h: History, size: nat, full: bool)
    requires h.termLogs.Keys == h.startLogs.Keys == h.leaders.Keys && AcksKnown(h)
    requires forall t :: t in h.leaders ==> t in h.electors
    requires S.CandidateOk(n, s, h) && s.role.Candidate? && E.OneVotePerTerm(n, s, h)
    requires |s.votes| >= Majority(size) && s.term !in h.leaders
    requires AckHeld(n, s, h) && VoteHeld(n, h)
    ensures ServerAcksOk(n, Lead(s, full), Election(h, n, s, Lead(s, full)))
  {
    var after := Lead(s, full);
    var h' := Election(h, n, s, after);
    ElectionGrows(n, s, h, size, full);
    forall t: Term, k: nat | Acked(h', n, t, k)
      ensures t <= after.term && (Prefix(h', t, k) <= after.log || Overruled(h', t, k, after.term))
    {
      if t != s.term {
        assert Acked(h, n, t, k);
        PrefixStays(h, h', t, k);
        if Overruled(h, t, k, s.term) {
          OverruledStays(h, h', t, k, s.term, s.term);
        }
      }
    }
    forall t: Term, k: nat, u: Term | Acked(h', n, t, k) && (n, u) in h'.ballots && t < u && Electing(h', n, u)
      ensures (n, u) in h'.voteLogs && (Prefix(h', t, k) <= h'.voteLogs[(n, u)] || Overruled(h', t, k, u - 1))
    {
      assert (n, u) in h.ballots && u <= s.term;
      assert Acked(h, n, t, k);
      VoteHeldStays(n, h, h', n, t, k, u);
    }
  }

  /** A candidate votes for itself with the log it has. */
  lemma CandidacyAcks(n: Id, s: Server, h: History)
    requires AcksKnown(h) && ServerAcksOk(n, s, h) && E.OneVotePerTerm(n, s, h) && S.CandidateOk(n, s, h)
    requires forall t :: t in h.leaders ==> t in h.electors
    ensures var h' := Candidacy(h, n, s);
      Grows(h, h', n) && AcksKnown(h') && AckHeld(n, Campaign(s, n), h') && VoteHeld(n, h')
  {
    var stood, h' := Campaign(s, n), Candidacy(h, n, s);
    S.CandidacyGrows(n, s, h);
    assert h'.acks == h.acks && h'.termLogs == h.termLogs;
    AcksKnownSame(h, h', n);
    forall t: Term, k: nat | Acked(h', n, t, k)
      ensures t <= stood.term && (Prefix(h', t, k) <= stood.log || Overruled(h', t, k, stood.term))
    {
      assert Acked(h, n, t, k);
      if Overruled(h, t, k, s.term) {
        OverruledStays(h, h', t, k, s.term, stood.term);
      }
    }
    forall t: Term, k: nat, u: Term | Acked(h', n, t, k) && (n, u) in h'.ballots && t < u && Electing(h', n, u)
      ensures (n, u) in h'.voteLogs && (Prefix(h', t, k) <= h'.voteLogs[(n, u)] || Overruled(h', t, k, u - 1))
    {
      assert Acked(h, n, t, k);
      if u == stood.term {
        assert (n, u) !in h.ballots && h'.voteLogs[(n, u)] == s.log;
        if Overruled(h, t, k, s.term) {
          OverruledStays(h, h', t, k, s.term, u - 1);
        }
      } else {
        assert (n, u) in h.ballots;
        VoteHeldStays(n, h, h', n, t, k, u);
      }
    }
  }

  /** A vote is granted with the log the voter has; the term it is cast in has no leader yet, or it is late. */
  lemma GrantAcks(n: Id, s: Server, h: History, size: nat, m: Message)
    requires AcksKnown(h) && ServerAcksOk(n, s, h) && E.OneVotePerTerm(n, s, h) && E.ElectedByMajority(h, size)
    requires h.startLogs.Keys == h.leaders.Keys
    requires m.RequestVote? && Grants(s, m)
    ensures var h' := Ballot(h, n, m.term, m.candidate, s.log);
      Grows(h, h', n) && AcksKnown(h') && VoteHeld(n, h')
  {
    var h' := Ballot(h, n, m.term, m.candidate, s.log);
    S.BallotGrows(h, n, m.term, m.candidate, s.log);
    assert h'.acks == h.acks && h'.termLogs == h.termLogs && h'.leaders == h.leaders;
    AcksKnownSame(h, h', n);
    forall t: Term, k: nat, u: Term | Acked(h', n, t, k) && (n, u) in h'.ballots && t < u && Electing(h', n, u)
      ensures (n, u) in h'.voteLogs && (Prefix(h', t, k) <= h'.voteLogs[(n, u)] || Overruled(h', t, k, u - 1))
    {
      assert Acked(h, n, t, k);
      if (n, u) in h.ballots {
        VoteHeldStays(n, h, h', n, t, k, u);
      } else {
        assert u == m.term && u !in h.leaders;
        if !(Prefix(h, t, k) <= s.log) {
          OverruledEarlier(h, t, k, s.term, u);
        }
      }
    }
  }

  /** A term without a leader overrules nothing. */
  lemma OverruledEarlier(h: History, t: Term, k: nat, upto: Term, u: Term)
    requires Overruled(h, t, k, upto) && upto <= u && u !in h.startLogs && u > 0
    ensures Overruled(h, t, k, u - 1)
  {
    var v :| t < v <= upto && v in h.startLogs && !(Prefix(h, t, k) <= h.startLogs[v]);
    assert v <= u - 1;
  }

  lemma StepDownAcks(n: Id, s: Server, h: History, term: Term)
    requires AcksKnown(h) && AckHeld(n, s, h)
    ensures AckHeld(n, StepDown(s, term), h)
  {
    var after := StepDown(s, term);
    forall t: Term, k: nat | Acked(h, n, t, k)
      ensures t <= after.term && (Prefix(h, t, k) <= after.log || Overruled(h, t, k, after.term))
    {
      if Overruled(h, t, k, s.term) {
        OverruledStays(h, h, t, k, s.term, after.term);
      }
    }
  }

  // ---- Replication -------------------------------------------------------

  /** Acknowledging more of one's own current term needs no look at ballots: there are no later ones. */
  lemma OwnTermVotes(n: Id, s: Server, h: History, h': History, t: Term, k: nat)
    requires AcksKnown(h) && VoteHeld(n, h) && E.OneVotePerTerm(n, s, h) && Grows(h, h', n)
    requires forall v :: v in h.leaders ==> v in h.electors
    requires h'.acks == h.acks[(n, t) := k] && h'.ballots == h.ballots && t >= s.term
    ensures VoteHeld(n, h')
  {
    forall u: Term, i: nat, v: Term | Acked(h', n, u, i) && (n, v) in h'.ballots && u < v && Electing(h', n, v)
      ensures (n, v) in h'.voteLogs && (Prefix(h', u, i) <= h'.voteLogs[(n, v)] || Overruled(h', u, i, v - 1))
    {
      assert v <= s.term && u != t;
      assert Acked(h, n, u, i);
      VoteHeldStays(n, h, h', n, u, i, v);
    }
  }

  lemma SubmitAcks(n: Id, s: Server, h: History, data: seq<uint8>)
    requires AcksKnown(h) && ServerAcksOk(n, s, h) && E.OneVotePerTerm(n, s, h)
    requires s.role.Leader? && M.ServerLogOk(n, s, h) && M.TermLogOk(s.term, h)
    requires forall v :: v in h.leaders ==> v in h.electors
    ensures var after := Submit(s, data);
      var h' := h.(termLogs := h.termLogs[s.term := after.log], acks := h.acks[(n, s.term) := |after.log|]);
      Grows(h, h', n) && AcksKnown(h') && ServerAcksOk(n, after, h')
  {
    var after := Submit(s, data);
    var h' := h.(termLogs := h.termLogs[s.term := after.log], acks := h.acks[(n, s.term) := |after.log|]);
    M.SubmitLog(n, s, h, data);
    assert !Acked(h, n, s.term, |after.log| + 1);
    AckUpdate(h, h', n, s.term, |after.log|);
    AcksKnownAfter(h, h', n, s.term, |after.log|);
    OwnTermVotes(n, s, h, h', s.term, |after.log|);
    forall t: Term, k: nat | Acked(h', n, t, k)
      ensures t <= after.term && (Prefix(h', t, k) <= after.log || Overruled(h', t, k, after.term))
    {
      if t != s.term {
        assert Acked(h, n, t, k);
        PrefixStays(h, h', t, k);
        if Overruled(h, t, k, s.term) {
          OverruledStays(h, h', t, k, s.term, s.term);
        }
      }
    }
  }

  /** What follower and leader shared before an append, they share still. */
  lemma SharedStays(n: Id, s: Server, h: History, m: Message, room: nat, shared: seq<Entry>)
    requires M.ServerLogOk(n, s, h) && m.Append? && M.AppendOk(m, h) && M.TermLogOk(m.term, h)
    requires Accepted(s, m) && shared <= s.log && shared <= h.termLogs[m.term]
    ensures shared <= OnAppend(s, m, room).log
  {
    M.ConsistentAgrees(s.log, m, h);
    M.MergeResult(s.log, m.prevIndex, m.entries, room, h.termLogs[m.term], shared, h);
  }

  /** What a server acknowledged before an append survives it or is overruled by the leader that sent it. */
  lemma AppendKeepsAck(n: Id, s: Server, h: History, m: Message, room: nat, t: Term, k: nat)
    requires AcksKnown(h) && AckHeld(n, s, h) && Acked(h, n, t, k)
    requires M.ServerLogOk(n, s, h) && m.Append? && M.AppendOk(m, h) && M.TermLogOk(m.term, h) && Accepted(s, m)
    ensures t <= m.term
    ensures Prefix(h, t, k) <= OnAppend(s, m, room).log || Overruled(h, t, k, m.term)
  {
    var p := Prefix(h, t, k);
    if Overruled(h, t, k, s.term) {
      OverruledStays(h, h, t, k, s.term, m.term);
    } else if p <= h.termLogs[m.term] {
      SharedStays(n, s, h, m, room, p);
    } else {
      if p <= h.startLogs[m.term] {
        M.PrefixTrans(p, h.startLogs[m.term], h.termLogs[m.term]);
      }
      assert t < m.term && m.term in h.startLogs;
    }
  }

  /** After an append a follower shares with the leader what the message covers, or all it has. */
  lemma AppendShares(n: Id, s: Server, h: History, m: Message, room: nat)
    requires M.ServerLogOk(n, s, h) && m.Append? && M.AppendOk(m, h) && M.TermLogOk(m.term, h) && Accepted(s, m)
    ensures var r, end := OnAppend(s, m, room).log, m.prevIndex + |m.entries|;
      r <= h.termLogs[m.term] || (end <= |r| && r[..end] == h.termLogs[m.term][..end])
  {
    M.ConsistentAgrees(s.log, m, h);
    M.MergeResult(s.log, m.prevIndex, m.entries, room, h.termLogs[m.term], [], h);
  }

  /** What is newly acknowledged is in the log, whatever the follower reports. */
  lemma NewAckHeld(n: Id, s: Server, h: History, m: Message, room: nat, k: nat)
    requires AcksKnown(h) && AckHeld(n, s, h)
    requires M.ServerLogOk(n, s, h) && m.Append? && M.AppendOk(m, h) && M.TermLogOk(m.term, h) && Accepted(s, m)
    requires k <= Shared(h, n, m, OnAppend(s, m, room).log)
    ensures k <= |h.termLogs[m.term]| && Prefix(h, m.term, k) <= OnAppend(s, m, room).log
  {
    AppendShares(n, s, h, m, room);
    if Acked(h, n, m.term, k) {
      AppendKeepsAck(n, s, h, m, room, m.term, k);
    }
  }

  lemma AppendAcks(n: Id, s: Server, h: History, m: Message, room: nat)
    requires AcksKnown(h) && ServerAcksOk(n, s, h) && E.OneVotePerTerm(n, s, h)
    requires M.ServerLogOk(n, s, h) && m.Append? && M.AppendOk(m, h) && M.TermLogOk(m.term, h) && Accepted(s, m)
    requires forall v :: v in h.leaders ==> v in h.electors
    ensures var after := OnAppend(s, m, room);
      var h' := h.(acks := h.acks[(n, m.term) := Shared(h, n, m, after.log)]);
      Grows(h, h', n) && AcksKnown(h') && ServerAcksOk(n, after, h')
  {
    var after := OnAppend(s, m, room);
    var k := Shared(h, n, m, after.log);
    var h' := h.(acks := h.acks[(n, m.term) := k]);
    NewAckHeld(n, s, h, m, room, k);
    AckUpdate(h, h', n, m.term, k);
    AcksKnownAfter(h, h', n, m.term, k);
    OwnTermVotes(n, s, h, h', m.term, k);
    AppendHeld(n, s, h, m, room, h');
  }

  lemma AppendHeld(n: Id, s: Server, h: History, m: Message, room: nat, h': History)
    requires AcksKnown(h) && AckHeld(n, s, h)
    requires M.ServerLogOk(n, s, h) && m.Append? && M.AppendOk(m, h) && M.TermLogOk(m.term, h) && Accepted(s, m)
    requires h' == h.(acks := h.acks[(n, m.term) := Shared(h, n, m, OnAppend(s, m, room).log)])
    ensures AckHeld(n, OnAppend(s, m, room), h')
  {
    var after := OnAppend(s, m, room);
    assert after.term == m.term;
    forall t: Term, k: nat | Acked(h', n, t, k)
      ensures t <= after.term && (Prefix(h', t, k) <= after.log || Overruled(h', t, k, after.term))
    {
      if t == m.term {
        NewAckHeld(n, s, h, m, room, k);
      } else {
        AppendKeepsAck(n, s, h, m, room, t, k);
        if Overruled(h, t, k, m.term) {
          OverruledStays(h, h', t, k, m.term, m.term);
        }
      }
    }
  }

  // ---- Leader completeness -----------------------------------------------

  ghost predicate AllAcked(h: History, q: set<Id>, t: Term, k: nat) {
    forall v :: v in q ==> Acked(h, v, t, k)
  }

  /** Index k holds an entry of the leader's own term t that a majority has acknowledged. */
  ghost predicate Committed(h: History, size: nat, t: Term, k: nat) {
    && t in h.termLogs && 0 < k <= |h.termLogs[t]| && h.termLogs[t][k - 1].term == t
    && exists q :: E.IsQuorum(q, size) && AllAcked(h, q, t, k)
  }

  ghost predicate Inv(c: Cluster) {
    S.Inv(c) && AckInv(c)
  }

  /** Terms never decrease along a rooted log. */
  lemma LastTermBounds(log: seq<Entry>, h: History, i: nat)
    requires M.Rooted(log, h) && i < |log|
    requires forall t :: t in h.termLogs ==> M.TermLogOk(t, h)
    ensures log[i].term <= LastTerm(log)
  {
    var t := LastTerm(log);
    assert log[..|log|] == log && log <= h.termLogs[t];
    M.TermsBounded(t, h);
    assert log[i] == h.termLogs[t][i];
  }

  /** Of two rooted logs, the one a voter would accept from a candidate holds what the voter holds, or ends later. */
  lemma UpToDateCases(stood: seq<Entry>, voted: seq<Entry>, h: History)
    requires M.Rooted(stood, h) && M.Rooted(voted, h) && voted != []
    requires UpToDate(LastTerm(stood), |stood|, voted)
    ensures stood != []
    ensures LastTerm(stood) == LastTerm(voted) ==> voted <= stood
  {
    if LastTerm(stood) == LastTerm(voted) {
      var root := h.termLogs[LastTerm(voted)];
      assert stood[..|stood|] == stood && voted[..|voted|] == voted;
      assert stood <= root && voted <= root;
    }
  }

  /** A log that ends in an entry of term t contains everything the leader of t started from. */
  lemma HoldsStart(log: seq<Entry>, h: History)
    requires M.Rooted(log, h) && log != [] && LastTerm(log) in h.termLogs && M.TermLogOk(LastTerm(log), h)
    ensures h.startLogs[LastTerm(log)] <= log
  {
    var t := LastTerm(log);
    assert log[..|log|] == log && log <= h.termLogs[t];
  }

  /** What one elector of a later term proves: the candidate it elected has the committed entries. */
  lemma ElectorProves(h: History, t: Term, k: nat, u: Term, v: Id, stood: seq<Entry>, voted: seq<Entry>)
    requires forall x :: x in h.termLogs ==> M.TermLogOk(x, h)
    requires t in h.termLogs && 0 < k <= |h.termLogs[t]| && h.termLogs[t][k - 1].term == t
    requires M.Rooted(stood, h) && M.Rooted(voted, h) && UpToDate(LastTerm(stood), |stood|, voted)
    requires Prefix(h, t, k) <= voted
    requires forall i :: 0 <= i < |stood| ==> stood[i].term < u
    requires forall x :: t < x < u && x in h.startLogs ==> Prefix(h, t, k) <= h.startLogs[x]
    ensures Prefix(h, t, k) <= stood
  {
    var p := Prefix(h, t, k);
    assert voted[k - 1] == p[k - 1];
    LastTermBounds(voted, h, k - 1);
    UpToDateCases(stood, voted, h);
    if LastTerm(stood) == LastTerm(voted) {
      M.PrefixTrans(p, voted, stood);
    } else {
      var x := LastTerm(stood);
      assert t < x < u && x in h.termLogs && M.TermLogOk(x, h);
      HoldsStart(stood, h);
      M.PrefixTrans(p, h.startLogs[x], stood);
    }
  }

  /** The log the leader of term u started from, with what is known about it. */
  lemma StartFacts(c: Cluster, u: Term)
    requires S.Inv(c) && u in c.h.leaders
    ensures u in c.h.startLogs && u in c.h.termLogs && M.TermLogOk(u, c.h) && M.Rooted(c.h.startLogs[u], c.h)
    ensures (c.h.leaders[u], u) in c.h.standLogs && c.h.standLogs[(c.h.leaders[u], u)] == c.h.startLogs[u]
  {
    assert S.StartOk(u, c.h);
    assert M.TermLogOk(u, c.h);
    M.RootedPrefix(c.h.termLogs[u], |c.h.startLogs[u]|, c.h);
    assert c.h.termLogs[u][..|c.h.startLogs[u]|] == c.h.startLogs[u];
  }

  /** A member of both the committing majority and the electing one. */
  lemma CommonMember(c: Cluster, t: Term, k: nat, u: Term) returns (v: Id)
    requires Inv(c) && Committed(c.h, |c.servers|, t, k) && u in c.h.leaders && t < u
    ensures Acked(c.h, v, t, k) && v < |c.servers| && (v, u) in c.h.ballots && c.h.ballots[(v, u)] == c.h.leaders[u]
    ensures Electing(c.h, v, u)
  {
    var q :| E.IsQuorum(q, |c.servers|) && AllAcked(c.h, q, t, k);
    v := E.QuorumsMeet(q, c.h.electors[u], |c.servers|);
  }

  /** Leader Completeness: every later leader starts with everything committed before. */
  lemma {:induction false} LeaderCompleteness(c: Cluster, t: Term, k: nat, u: Term)
    requires Inv(c) && Committed(c.h, |c.servers|, t, k) && u in c.h.leaders && t < u
    ensures u in c.h.startLogs && Prefix(c.h, t, k) <= c.h.startLogs[u]
    decreases u
  {
    forall x | t < x < u && x in c.h.startLogs ensures Prefix(c.h, t, k) <= c.h.startLogs[x] {
      LeaderCompleteness(c, t, k, x);
    }
    var v := CommonMember(c, t, k, u);
    assert ServerAcksOk(v, c.servers[v], c.h);
    assert !Overruled(c.h, t, k, u - 1);
    assert S.BallotOk((v, u), c.h);
    StartFacts(c, u);
    assert forall x :: x in c.h.termLogs ==> M.TermLogOk(x, c.h);
    ElectorProves(c.h, t, k, u, v, c.h.startLogs[u], c.h.voteLogs[(v, u)]);
  }

  // ---- Steps -------------------------------------------------------------

  /** Kinds of care that the results ask of a run, each of one kind of event. */
  datatype Care =
    | NoRestart   // no server restarts
    | Fits        // what a message has a follower commit finds room in its log
    | Held        // what a leader commits, a majority has had in step with it
    | Noop        // a leader submits only after its own no-op
    | Hinted      // a leader with its no-op hears no refusal without a hint from a server of its term

  /** How far a message has a follower commit: the leader's commit index, up to the last new entry. */
  function Adopted(m: Message): nat
    requires m.Append?
  {
    if m.commit < m.prevIndex + |m.entries| then m.commit else m.prevIndex + |m.entries|
  }

  /** A leader with its no-op in the log is refused by a server in its own term. */
  predicate RefusedBy(s: Server, m: Message, size: nat) {
    s.role.Leader? && LastTerm(s.log) == s.term && m.AppendReply? && m.term == s.term && m.from < size && !m.success
  }

  /** What a leader commits by counting, a majority has had in step with it. */
  ghost predicate CountsRight(s: Server, s': Server, h: History, size: nat) {
    s'.commit == s.commit || Committed(h, size, s.term, s'.commit)
  }

  ghost predicate Minds(c: Cluster, ev: Event, care: Care)
    requires Enabled(c, ev)
  {
    match care
    case NoRestart => !ev.Restarts?
    case Fits => ev.HearsAppend? && Accepted(c.servers[ev.n], ev.m) ==>
      Adopted(ev.m) <= |OnAppend(c.servers[ev.n], ev.m, ev.room).log|
    case Held => ev.HearsAppendReply? || ev.Recounts? ==>
      CountsRight(c.servers[ev.n], Next(c, ev).servers[ev.n], c.h, |c.servers|)
    case Noop => ev.Submits? ==> LastTerm(c.servers[ev.n].log) == c.servers[ev.n].term
    case Hinted => ev.HearsAppendReply? && RefusedBy(c.servers[ev.n], ev.m, |c.servers|) ==> ev.m.hint.index > 0
  }

  ghost predicate Facts(c: Cluster, n: Id)
    requires n < |c.servers|
  {
    && AckInv(c)
    && E.ServerOk(n, c.servers[n], c.h, |c.servers|) && E.ElectedByMajority(c.h, |c.servers|)
    && M.ServerLogOk(n, c.servers[n], c.h) && S.CandidateOk(n, c.servers[n], c.h)
    && c.h.termLogs.Keys == c.h.startLogs.Keys == c.h.leaders.Keys
  }

  /** A candidacy, and an election where the candidate's own vote is a majority. */
  lemma CampaignAcks(n: Id, s: Server, h: History, size: nat, full: bool)
    requires AcksKnown(h) && ServerAcksOk(n, s, h) && S.CandidateOk(n, s, h) && n < size
    requires E.ServerOk(n, s, h, size) && E.ElectedByMajority(h, size)
    requires h.termLogs.Keys == h.startLogs.Keys == h.leaders.Keys && M.ServerLogOk(n, s, h)
    requires forall k :: k in h.ballots ==> k in h.voteLogs
    ensures var stood := Campaign(s, n);
      var after := LeadIfElected(stood, size, full);
      var h' := Election(Candidacy(h, n, s), n, stood, after);
      Grows(h, h', n) && AcksKnown(h') && ServerAcksOk(n, after, h')
  {
    var stood, mid := Campaign(s, n), Candidacy(h, n, s);
    CandidacyAcks(n, s, h);
    E.CampaignOk(n, s, h, size);
    E.LeadOk(n, stood, mid, size, full);
    S.CandidacyOk(n, s, h);
    if |stood.votes| >= Majority(size) {
      ElectionGrows(n, stood, mid, size, full);
      ElectionAcks(n, stood, mid, size, full);
      GrowsTrans(h, mid, Election(mid, n, stood, Lead(stood, full)), n);
    } else {
      assert Election(mid, n, stood, stood) == mid;
    }
  }

  lemma CampaignsAcks(c: Cluster, n: Id, full: bool)
    requires Enabled(c, Campaigns(n, full)) && Facts(c, n)
    requires forall k :: k in c.h.ballots ==> k in c.h.voteLogs
    ensures AckInv(Campaigning(c, n, full)) && Grows(c.h, Campaigning(c, n, full).h, n)
  {
    var s, c' := c.servers[n], Campaigning(c, n, full);
    assert ServerAcksOk(n, s, c.h);
    CampaignAcks(n, s, c.h, |c.servers|, full);
    assert c'.servers == c.servers[n := LeadIfElected(Campaign(s, n), |c.servers|, full)];
    StepAcks(c, c', n);
  }

  lemma GrowsTrans(h: History, h': History, h'': History, n: Id)
    requires Grows(h, h', n) && Grows(h', h'', n)
    requires forall k :: k in h.ballots ==> k in h.voteLogs
    ensures Grows(h, h'', n)
  {
    S.GrowsTrans(h, h', h'', n);
  }

  lemma HearsRequestAcks(c: Cluster, n: Id, m: Message)
    requires Enabled(c, HearsRequest(n, m)) && Facts(c, n)
    ensures AckInv(Voting(c, n, m)) && Grows(c.h, Voting(c, n, m).h, n)
  {
    var s, c' := c.servers[n], Voting(c, n, m);
    assert ServerAcksOk(n, s, c.h);
    StepDownAcks(n, s, c.h, m.term);
    if Grants(s, m) {
      GrantAcks(n, s, c.h, |c.servers|, m);
      SameAcksHeld(n, StepDown(s, m.term), c'.servers[n], c.h, c'.h);
    } else {
      AcksKnownSame(c.h, c'.h, n);
    }
    StepAcks(c, c', n);
  }

  /** What is acknowledged, led and started from is the same, and so is the log. */
  lemma SameAcksHeld(n: Id, s: Server, s': Server, h: History, h': History)
    requires AckHeld(n, s, h) && s'.log == s.log && s'.term == s.term
    requires h'.acks == h.acks && h'.termLogs == h.termLogs && h'.startLogs == h.startLogs
    ensures AckHeld(n, s', h')
  {
    forall t: Term, k: nat | Acked(h', n, t, k)
      ensures t <= s'.term && (Prefix(h', t, k) <= s'.log || Overruled(h', t, k, s'.term))
    {
      assert Acked(h, n, t, k) && Prefix(h', t, k) == Prefix(h, t, k);
      assert Overruled(h, t, k, s.term) ==> Overruled(h', t, k, s.term);
    }
  }

  predicate Decides(s: Server, m: Message, size: nat)
    requires m.VoteReply?
  {
    && s.role.Candidate? && m.term == s.term && m.from < size && m.from !in s.votes && m.granted
    && |s.votes + {m.from}| >= Majority(size)
  }

  /** A vote that does not decide leaves log and leadership, and hence the history, alone. */
  lemma Undecided(s: Server, n: Id, h: History, m: Message, size: nat, full: bool)
    requires m.VoteReply? && !Decides(s, m, size)
    ensures var after := OnVoteReply(s, m, size, full);
      && Election(h, n, s, after) == h && after.log == s.log && after.term == StepDown(s, after.term).term
      && (after.role.Leader? ==> after == s)
  {
  }

  lemma UndecidedAcks(n: Id, s: Server, after: Server, h: History)
    requires AcksKnown(h) && ServerAcksOk(n, s, h)
    requires after.log == s.log && after.term == StepDown(s, after.term).term && (after.role.Leader? ==> after == s)
    ensures ServerAcksOk(n, after, h)
  {
    StepDownAcks(n, s, h, after.term);
  }

  lemma DecidedAcks(n: Id, s: Server, counted: Server, h: History, size: nat, full: bool)
    requires AcksKnown(h) && ServerAcksOk(n, s, h) && S.CandidateOk(n, s, h) && s.role.Candidate?
    requires E.OneVotePerTerm(n, s, h) && E.ElectedByMajority(h, size)
    requires h.termLogs.Keys == h.startLogs.Keys == h.leaders.Keys
    requires counted == s.(votes := counted.votes) && |counted.votes| >= Majority(size) && s.term !in h.leaders
    ensures var h' := Election(h, n, s, Lead(counted, full));
      Grows(h, h', n) && AcksKnown(h') && ServerAcksOk(n, Lead(counted, full), h')
  {
    ElectionGrows(n, counted, h, size, full);
    ElectionAcks(n, counted, h, size, full);
    assert Election(h, n, s, Lead(counted, full)) == Election(h, n, counted, Lead(counted, full));
  }

  /** Counting a vote, and an election where it makes a majority. */
  lemma VoteAcks(n: Id, s: Server, h: History, size: nat, m: Message, full: bool)
    requires AcksKnown(h) && ServerAcksOk(n, s, h) && S.CandidateOk(n, s, h)
    requires E.ServerOk(n, s, h, size) && E.ElectedByMajority(h, size)
    requires h.termLogs.Keys == h.startLogs.Keys == h.leaders.Keys
    requires m.VoteReply? && m.to == n && E.MessageOk(m, h)
    ensures var after := OnVoteReply(s, m, size, full);
      var h' := Election(h, n, s, after);
      Grows(h, h', n) && AcksKnown(h') && ServerAcksOk(n, after, h')
  {
    if Decides(s, m, size) {
      var counted := s.(votes := s.votes + {m.from});
      E.LeadOk(n, counted, h, size, full);
      DecidedAcks(n, s, counted, h, size, full);
    } else {
      Undecided(s, n, h, m, size, full);
      UndecidedAcks(n, s, OnVoteReply(s, m, size, full), h);
      AcksKnownSame(h, h, n);
    }
  }

  lemma HearsVoteAcks(c: Cluster, n: Id, m: Message, full: bool)
    requires Enabled(c, HearsVote(n, m, full)) && Facts(c, n) && E.MessageOk(m, c.h)
    ensures AckInv(Counting(c, n, m, full)) && Grows(c.h, Counting(c, n, m, full).h, n)
  {
    var s, c' := c.servers[n], Counting(c, n, m, full);
    assert ServerAcksOk(n, s, c.h);
    VoteAcks(n, s, c.h, |c.servers|, m, full);
    assert c'.servers == c.servers[n := OnVoteReply(s, m, |c.servers|, full)];
    StepAcks(c, c', n);
  }

  lemma SubmitsAcks(c: Cluster, n: Id, data: seq<uint8>)
    requires Enabled(c, Submits(n, data)) && Facts(c, n) && M.TermLogOk(c.servers[n].term, c.h)
    ensures AckInv(Submitting(c, n, data)) && Grows(c.h, Submitting(c, n, data).h, n)
  {
    assert ServerAcksOk(n, c.servers[n], c.h);
    SubmitAcks(n, c.servers[n], c.h, data);
    StepAcks(c, Submitting(c, n, data), n);
  }

  /** Taking in a leader's entries: the new state, piece by piece. */
  lemma AcceptedState(c: Cluster, n: Id, m: Message, room: nat)
    requires Enabled(c, HearsAppend(n, m, room))
    requires Accepted(c.servers[n], m)
    ensures var after, c' := OnAppend(c.servers[n], m, room), Appending(c, n, m, room);
      && c'.servers == c.servers[n := after] && after.term == m.term
      && c'.h == c.h.(acks := c.h.acks[(n, m.term) := Shared(c.h, n, m, after.log)])
      && c'.net == c.net + {AppendReply(n, m.leader, m.term, true, |after.log|, NoHint)}
  {
  }

  lemma AcceptedAppendAcks(c: Cluster, c': Cluster, n: Id, m: Message, room: nat, after: Server)
    requires AckInv(c) && n < |c.servers| && E.OneVotePerTerm(n, c.servers[n], c.h) && m.Append?
    requires forall k :: k in c.h.leaders ==> k in c.h.electors
    requires M.ServerLogOk(n, c.servers[n], c.h)
    requires M.AppendOk(m, c.h) && M.TermLogOk(m.term, c.h)
    requires Accepted(c.servers[n], m)
    requires after == OnAppend(c.servers[n], m, room) && c'.servers == c.servers[n := after]
    requires c'.h == c.h.(acks := c.h.acks[(n, m.term) := Shared(c.h, n, m, after.log)])
    ensures AckInv(c') && Grows(c.h, c'.h, n)
  {
    assert ServerAcksOk(n, c.servers[n], c.h);
    AppendAcks(n, c.servers[n], c.h, m, room);
    StepAcks(c, c', n);
  }

  lemma RefusedAppendAcks(c: Cluster, n: Id, m: Message, room: nat)
    requires Enabled(c, HearsAppend(n, m, room)) && Facts(c, n)
    requires !Accepted(c.servers[n], m)
    ensures AckInv(Appending(c, n, m, room)) && Grows(c.h, Appending(c, n, m, room).h, n)
  {
    var s, c' := c.servers[n], Appending(c, n, m, room);
    assert ServerAcksOk(n, s, c.h);
    StepDownAcks(n, s, c.h, m.term);
    AcksKnownSame(c.h, c'.h, n);
    StepAcks(c, c', n);
  }

  lemma HearsAppendReplyAcks(c: Cluster, n: Id, m: Message)
    requires Enabled(c, HearsAppendReply(n, m)) && Facts(c, n)
    ensures AckInv(Next(c, HearsAppendReply(n, m))) && Grows(c.h, Next(c, HearsAppendReply(n, m)).h, n)
  {
    var s, c' := c.servers[n], Next(c, HearsAppendReply(n, m));
    assert ServerAcksOk(n, s, c.h);
    ReplyCounted(n, s, c.h, |c.servers|, m);
    AcksKnownSame(c.h, c'.h, n);
    StepAcks(c, c', n);
  }

  lemma ReplyCounted(n: Id, s: Server, h: History, size: nat, m: Message)
    requires m.AppendReply? && AcksKnown(h) && AckHeld(n, s, h) && LeaderOk(n, s, h)
    ensures AckHeld(n, OnAppendReply(s, n, m, size), h) && LeaderOk(n, OnAppendReply(s, n, m, size), h)
  {
    StepDownAcks(n, s, h, m.term);
    if m.term == s.term && s.role.Leader? && m.from < size && m.success {
      E.AdvanceCommitOnlyCommits(Counted(s, m), n, size, |s.log|);
    }
  }

  lemma OtherAcks(c: Cluster, ev: Event)
    requires Enabled(c, ev) && Facts(c, ev.n) && (ev.Sends? || ev.Recounts? || ev.LosesContact?)
    ensures AckInv(Next(c, ev)) && Grows(c.h, Next(c, ev).h, ev.n)
  {
    assert ServerAcksOk(ev.n, c.servers[ev.n], c.h);
    E.AdvanceCommitOnlyCommits(c.servers[ev.n], ev.n, |c.servers|, |c.servers[ev.n].log|);
    AcksKnownSame(c.h, c.h, ev.n);
    StepAcks(c, Next(c, ev), ev.n);
  }

  lemma NextAcks(c: Cluster, ev: Event)
    requires Inv(c) && Enabled(c, ev) && Minds(c, ev, NoRestart)
    ensures AckInv(Next(c, ev)) && Grows(c.h, Next(c, ev).h, ev.n)
  {
    var n := ev.n;
    assert Facts(c, n);
    match ev {
      case Campaigns(_, full) =>
        assert forall k :: k in c.h.ballots ==> S.BallotOk(k, c.h);
        CampaignsAcks(c, n, full);
      case HearsRequest(_, m) => HearsRequestAcks(c, n, m);
      case HearsVote(_, m, full) =>
        assert E.MessageOk(m, c.h);
        HearsVoteAcks(c, n, m, full);
      case Submits(_, data) =>
        assert M.TermLogOk(c.servers[n].term, c.h);
        SubmitsAcks(c, n, data);
      case HearsAppend(_, m, room) =>
        assert M.AppendOk(m, c.h) && M.TermLogOk(m.term, c.h);
        if Accepted(c.servers[n], m) {
          AcceptedState(c, n, m, room);
          AcceptedAppendAcks(c, Appending(c, n, m, room), n, m, room, OnAppend(c.servers[n], m, room));
        } else {
          RefusedAppendAcks(c, n, m, room);
        }
      case HearsAppendReply(_, m) => HearsAppendReplyAcks(c, n, m);
      case _ => OtherAcks(c, ev);
    }
  }
}
