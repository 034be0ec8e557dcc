/**
 * Election Safety: over every run, with lost, repeated and reordered messages and with
 * restarts, no term ever has two leaders.
 */
module RaftElection {
  import opened Basics
  import opened Raft

  // ---- Quorums -----------------------------------------------------------

  function Everyone(size: nat): (s: set<Id>)
    ensures forall i :: i in s <==> 0 <= i < size
    ensures |s| == size
  {
    if size == 0 then {}
    else Everyone(size - 1) + {size - 1}
  }

  ghost predicate IsQuorum(q: set<Id>, size: nat) {
    |q| >= Majority(size) && forall v :: v in q ==> v < size
  }

  lemma SubsetSize(a: set<Id>, b: set<Id>)
    requires a <= b
    ensures |a| <= |b|
  {
    assert b == a + (b - a);
  }

  /** Two majorities of the same cluster share a member. */
  lemma QuorumsMeet(a: set<Id>, b: set<Id>, size: nat) returns (v: Id)
    requires IsQuorum(a, size) && IsQuorum(b, size)
    ensures v in a && v in b
  {
    if a !! b {
      assert |a + b| == |a| + |b|;
      SubsetSize(a + b, Everyone(size));
      assert false;
    }
    v :| v in a && v in b;
  }

  // ---- The invariant -----------------------------------------------------

  /** A server's vote is its only ballot in its term, and it has cast none in later terms. */
  ghost predicate OneVotePerTerm(n: Id, s: Server, h: History) {
    && (s.votedFor.Some? ==> (n, s.term) in h.ballots)
    && (forall t :: (n, t) in h.ballots ==> t <= s.term)
    && ((n, s.term) in h.ballots ==> s.votedFor == Some(h.ballots[(n, s.term)]))
  }

  /** The votes a candidate or leader counts are ballots cast for it in its term. */
  ghost predicate CountsRealVotes(n: Id, s: Server, h: History, size: nat) {
    !s.role.Follower? ==>
      && n in s.votes
      && forall v :: v in s.votes ==> v < size && (v, s.term) in h.ballots && h.ballots[(v, s.term)] == n
  }

  /** A leader is the recorded leader of its term; a candidate has not led its term. */
  ghost predicate RoleRecorded(n: Id, s: Server, h: History) {
    && (s.role.Leader? ==> s.term in h.leaders && h.leaders[s.term] == n)
    && (s.role.Candidate? && s.term in h.leaders ==> h.leaders[s.term] != n)
  }

  ghost predicate ServerOk(n: Id, s: Server, h: History, size: nat) {
    OneVotePerTerm(n, s, h) && CountsRealVotes(n, s, h, size) && RoleRecorded(n, s, h)
  }

  ghost predicate MessageOk(m: Message, h: History) {
    m.VoteReply? && m.granted ==> (m.from, m.term) in h.ballots && h.ballots[(m.from, m.term)] == m.to
  }

  /** Every leader was elected by a majority of ballots for it, its own among them. */
  ghost predicate ElectedByMajority(h: History, size: nat) {
    forall t :: t in h.leaders ==>
      && t in h.electors && IsQuorum(h.electors[t], size) && h.leaders[t] in h.electors[t]
      && forall v :: v in h.electors[t] ==> (v, t) in h.ballots && h.ballots[(v, t)] == h.leaders[t]
  }

  ghost predicate Inv(c: Cluster) {
    && (forall n :: 0 <= n < |c.servers| ==> ServerOk(n, c.servers[n], c.h, |c.servers|))
    && (forall m :: m in c.net ==> MessageOk(m, c.h))
    && ElectedByMajority(c.h, |c.servers|)
  }

  // ---- Steps -------------------------------------------------------------

  /** History only grows, and a step of server n adds ballots of n and leaderships of n only. */
  ghost predicate Grows(h: History, h': History, n: Id) {
    && (forall k :: k in h.ballots ==> k in h'.ballots && h'.ballots[k] == h.ballots[k])
    && (forall k :: k in h'.ballots ==> k in h.ballots || k.0 == n)
    && (forall t :: t in h.leaders ==> t in h'.leaders && h'.leaders[t] == h.leaders[t])
    && (forall t :: t in h'.leaders ==> t in h.leaders || h'.leaders[t] == n)
  }

  lemma OthersStayOk(m: Id, s: Server, h: History, h': History, n: Id, size: nat)
    requires ServerOk(m, s, h, size) && Grows(h, h', n) && m != n
    ensures ServerOk(m, s, h', size)
  {
    forall t | (m, t) in h'.ballots ensures (m, t) in h.ballots {
      assert (m, t).0 != n;
    }
  }

  /** A step of one server that keeps its own part and the history's keeps the whole invariant. */
  lemma StepOk(c: Cluster, c': Cluster, n: Id)
    requires Inv(c) && n < |c.servers| && |c'.servers| == |c.servers|
    requires forall m :: 0 <= m < |c.servers| && m != n ==> c'.servers[m] == c.servers[m]
    requires Grows(c.h, c'.h, n)
    requires ServerOk(n, c'.servers[n], c'.h, |c.servers|)
    requires forall m :: m in c'.net ==> m in c.net || MessageOk(m, c'.h)
    requires ElectedByMajority(c'.h, |c.servers|)
    ensures Inv(c')
  {
    forall m | 0 <= m < |c.servers| ensures ServerOk(m, c'.servers[m], c'.h, |c.servers|) {
      if m != n {
        OthersStayOk(m, c.servers[m], c.h, c'.h, n, |c.servers|);
      }
    }
  }

  lemma StepDownOk(n: Id, s: Server, h: History, size: nat, term: Term)
    requires ServerOk(n, s, h, size)
    ensures ServerOk(n, StepDown(s, term), h, size)
  {
    if term > s.term {
      assert (n, term) !in h.ballots;
    }
  }

  /** Nobody can be elected in a term that has a leader already. */
  lemma ElectionIsFresh(n: Id, s: Server, h: History, size: nat)
    requires CountsRealVotes(n, s, h, size) && RoleRecorded(n, s, h) && ElectedByMajority(h, size)
    requires s.role.Candidate? && |s.votes| >= Majority(size)
    ensures s.term !in h.leaders
  {
    if s.term in h.leaders {
      var v := QuorumsMeet(s.votes, h.electors[s.term], size);
    }
  }

  /** Becoming leader with a majority is recorded and keeps the invariant's parts. */
  lemma LeadOk(n: Id, s: Server, h: History, size: nat, full: bool)
    requires ServerOk(n, s, h, size) && ElectedByMajority(h, size) && s.role.Candidate?
    ensures var after := LeadIfElected(s, size, full);
      var h' := Election(h, n, s, after);
      && ServerOk(n, after, h', size) && ElectedByMajority(h', size) && Grows(h, h', n)
      && h'.ballots == h.ballots
      && (after.role.Leader? ==> s.term !in h.leaders)
  {
    if |s.votes| >= Majority(size) {
      ElectionIsFresh(n, s, h, size);
      WonOk(n, s, Lead(s, full), h, size);
    }
  }

  /** A fresh leadership recorded. */
  lemma WonOk(n: Id, s: Server, after: Server, h: History, size: nat)
    requires ServerOk(n, s, h, size) && ElectedByMajority(h, size) && s.role.Candidate?
    requires IsQuorum(s.votes, size) && s.term !in h.leaders
    requires after.role.Leader? && after.term == s.term && after.votes == s.votes && after.votedFor == s.votedFor
    ensures var h' := Election(h, n, s, after);
      ServerOk(n, after, h', size) && ElectedByMajority(h', size) && Grows(h, h', n) && h'.ballots == h.ballots
  {
  }

  lemma CampaignOk(n: Id, s: Server, h: History, size: nat)
    requires ServerOk(n, s, h, size) && ElectedByMajority(h, size) && n < size
    ensures var stood := Campaign(s, n);
      var h' := Candidacy(h, n, s);
      && ServerOk(n, stood, h', size) && ElectedByMajority(h', size) && Grows(h, h', n)
      && (n, stood.term) !in h.ballots
  {
    assert (n, s.term + 1) !in h.ballots;
  }

  lemma CampaignsOk(c: Cluster, n: Id, full: bool)
    requires Inv(c) && Enabled(c, Campaigns(n, full))
    ensures Inv(Campaigning(c, n, full)) && Grows(c.h, Campaigning(c, n, full).h, n)
  {
    var s, size := c.servers[n], |c.servers|;
    assert ServerOk(n, s, c.h, size);
    CampaignOk(n, s, c.h, size);
    LeadOk(n, Campaign(s, n), Candidacy(c.h, n, s), size, full);
    StepOk(c, Campaigning(c, n, full), n);
  }

  lemma RequestOk(n: Id, s: Server, h: History, size: nat, m: Message)
    requires ServerOk(n, s, h, size) && ElectedByMajority(h, size) && m.RequestVote?
    ensures var after := OnRequestVote(s, m);
      var h' := if Grants(s, m) then Ballot(h, n, m.term, m.candidate, s.log) else h;
      && ServerOk(n, after, h', size) && ElectedByMajority(h', size) && Grows(h, h', n)
      && MessageOk(VoteReply(n, m.candidate, after.term, Grants(s, m)), h')
  {
    StepDownOk(n, s, h, size, m.term);
    var t := StepDown(s, m.term);
    if Grants(s, m) {
      assert t.term == m.term;
      if (n, m.term) in h.ballots {
        assert t.votedFor == Some(h.ballots[(n, m.term)]);
      }
    }
  }

  lemma HearsRequestOk(c: Cluster, n: Id, m: Message)
    requires Inv(c) && Enabled(c, HearsRequest(n, m))
    ensures Inv(Voting(c, n, m)) && Grows(c.h, Voting(c, n, m).h, n)
  {
    assert ServerOk(n, c.servers[n], c.h, |c.servers|);
    RequestOk(n, c.servers[n], c.h, |c.servers|, m);
    StepOk(c, Voting(c, n, m), n);
  }

  lemma HearsVoteOk(c: Cluster, n: Id, m: Message, full: bool)
    requires Inv(c) && Enabled(c, HearsVote(n, m, full))
    ensures Inv(Counting(c, n, m, full)) && Grows(c.h, Counting(c, n, m, full).h, n)
  {
    var s, size := c.servers[n], |c.servers|;
    assert ServerOk(n, s, c.h, size) && MessageOk(m, c.h);
    if s.role.Candidate? && m.term == s.term && m.from < size && m.from !in s.votes && m.granted {
      LeadOk(n, s.(votes := s.votes + {m.from}), c.h, size, full);
    } else {
      StepDownOk(n, s, c.h, size, m.term);
    }
    StepOk(c, Counting(c, n, m, full), n);
  }

  /** Handlers that cast no vote and win no election only ever step down. */
  lemma QuietStepOk(c: Cluster, c': Cluster, n: Id, term: Term)
    requires Inv(c) && n < |c.servers| && |c'.servers| == |c.servers|
    requires forall m :: 0 <= m < |c.servers| && m != n ==> c'.servers[m] == c.servers[m]
    requires c'.h.ballots == c.h.ballots && c'.h.leaders == c.h.leaders && c'.h.electors == c.h.electors
    requires var s, t := StepDown(c.servers[n], term), c'.servers[n];
      t.term == s.term && t.votedFor == s.votedFor && (t.role.Follower? || (t.role == s.role && t.votes == s.votes))
    requires forall m :: m in c'.net ==> m in c.net || !m.VoteReply?
    ensures Inv(c') && Grows(c.h, c'.h, n)
  {
    assert ServerOk(n, c.servers[n], c.h, |c.servers|);
    StepDownOk(n, c.servers[n], c.h, |c.servers|, term);
    StepOk(c, c', n);
  }

  lemma AdvanceCommitOnlyCommits(s: Server, self: Id, size: nat, n: nat)
    requires n <= |s.log|
    ensures AdvanceCommit(s, self, size, n) == s.(commit := AdvanceCommit(s, self, size, n).commit)
    ensures s.commit <= AdvanceCommit(s, self, size, n).commit
  {
  }

  lemma NextOk(c: Cluster, ev: Event)
    requires Inv(c) && Enabled(c, ev)
    ensures Inv(Next(c, ev)) && Grows(c.h, Next(c, ev).h, ev.n)
  {
    match ev {
      case Campaigns(n, full) => CampaignsOk(c, n, full);
      case HearsRequest(n, m) => HearsRequestOk(c, n, m);
      case HearsVote(n, m, full) => HearsVoteOk(c, n, m, full);
      case HearsAppend(n, m, _) => QuietStepOk(c, Next(c, ev), n, m.term);
      case HearsAppendReply(n, m) =>
        var s := c.servers[n];
        if m.term <= s.term && s.role.Leader? && m.term == s.term && m.from < |c.servers| && m.success {
              AdvanceCommitOnlyCommits(Counted(s, m), n, |c.servers|, |s.log|);
        }
        QuietStepOk(c, Next(c, ev), n, m.term);
      case Recounts(n) =>
        AdvanceCommitOnlyCommits(c.servers[n], n, |c.servers|, |c.servers[n].log|);
        QuietStepOk(c, Next(c, ev), n, 0);
      case _ => QuietStepOk(c, Next(c, ev), ev.n, 0);
    }
  }

  /** Along a run the invariant holds, and who has led a term stays on record. */
  lemma {:induction false} RunOk(c: Cluster, evs: seq<Event>)
    requires Inv(c) && ValidRun(c, evs)
    ensures Inv(Run(c, evs))
    ensures forall t :: t in c.h.leaders ==> t in Run(c, evs).h.leaders && Run(c, evs).h.leaders[t] == c.h.leaders[t]
    decreases |evs|
  {
    if evs != [] {
      NextOk(c, evs[0]);
      RunOk(Next(c, evs[0]), evs[1..]);
    }
  }

  lemma LeaderRecorded(c: Cluster, a: Id)
    requires Inv(c) && a < |c.servers| && c.servers[a].role.Leader?
    ensures c.servers[a].term in c.h.leaders && c.h.leaders[c.servers[a].term] == a
  {
    assert ServerOk(a, c.servers[a], c.h, |c.servers|);
  }

  /**
   * Election Safety: in every run of a cluster of any size, whoever leads a term at one time and whoever
   * leads it then or later are one server.
   */
  lemma ElectionSafety(size: nat, cap: nat, batch: nat, before: seq<Event>, after: seq<Event>, a: Id, b: Id)
    requires ValidRun(NewCluster(size, cap, batch), before)
    requires ValidRun(Run(NewCluster(size, cap, batch), before), after)
    requires var c := Run(NewCluster(size, cap, batch), before);
      var d := Run(c, after);
      && a < |c.servers| && c.servers[a].role.Leader? && b < |d.servers| && d.servers[b].role.Leader?
      && c.servers[a].term == d.servers[b].term
    ensures a == b
  {
    var c := Run(NewCluster(size, cap, batch), before);
    RunOk(NewCluster(size, cap, batch), before);
    RunOk(c, after);
    LeaderRecorded(c, a);
    LeaderRecorded(Run(c, after), b);
  }
}
