/**
 * What a vote says about logs: over every run, a ballot is cast with a log no more up to
 * date than the log its candidate stood with, and a leader starts from that very log.
 */
module RaftStanding {
  import opened Basics
  import opened Raft
  import E = RaftElection
  import M = RaftMatching

  /** A candidate still has the log it stood with. */
  ghost predicate CandidateOk(n: Id, s: Server, h: History) {
    && (s.role.Candidate? ==> (n, s.term) in h.standLogs && h.standLogs[(n, s.term)] == s.log)
    && (forall t :: (n, t) in h.standLogs ==> t <= s.term)
  }

  /** A request for votes describes the log its candidate stood with. */
  ghost predicate RequestOk(m: Message, h: History) {
    m.RequestVote? ==>
      && (m.candidate, m.term) in h.standLogs
      && m.lastIndex == |h.standLogs[(m.candidate, m.term)]|
      && m.lastTerm == LastTerm(h.standLogs[(m.candidate, m.term)])
  }

  ghost predicate BallotOk(k: (Id, Term), h: History)
    requires k in h.ballots
  {
    && k in h.voteLogs && M.Rooted(h.voteLogs[k], h)
    && (h.ballots[k], k.1) in h.standLogs
    && var stood := h.standLogs[(h.ballots[k], k.1)];
       UpToDate(LastTerm(stood), |stood|, h.voteLogs[k])
  }

  /** Leaders start from the log they stood with. */
  ghost predicate StartOk(t: Term, h: History)
    requires t in h.leaders
  {
    t in h.startLogs && (h.leaders[t], t) in h.standLogs && h.startLogs[t] == h.standLogs[(h.leaders[t], t)]
  }

  ghost predicate StandInv(c: Cluster) {
    && (forall n :: 0 <= n < |c.servers| ==> CandidateOk(n, c.servers[n], c.h))
    && (forall m :: m in c.net ==> RequestOk(m, c.h))
    && (forall k :: k in c.h.ballots ==> BallotOk(k, c.h))
    && (forall t :: t in c.h.leaders ==> StartOk(t, c.h))
  }

  ghost predicate Inv(c: Cluster) {
    M.Inv(c) && StandInv(c)
  }

  /** What steps of server n may do to the records this module speaks of. */
  ghost predicate Grows(h: History, h': History, n: Id) {
    && M.Extends(h, h') && E.Grows(h, h', n)
    && (forall k :: k in h.standLogs ==> k in h'.standLogs && h'.standLogs[k] == h.standLogs[k])
    && (forall k :: k in h'.standLogs ==> k in h.standLogs || k.0 == n)
    && (forall k :: k in h.ballots && k in h.voteLogs ==> k in h'.voteLogs && h'.voteLogs[k] == h.voteLogs[k])
  }

  lemma StepStands(c: Cluster, c': Cluster, n: Id)
    requires StandInv(c) && n < |c.servers| && |c'.servers| == |c.servers|
    requires forall m :: 0 <= m < |c.servers| && m != n ==> c'.servers[m] == c.servers[m]
    requires Grows(c.h, c'.h, n)
    requires CandidateOk(n, c'.servers[n], c'.h)
    requires forall m :: m in c'.net ==> m in c.net || RequestOk(m, c'.h)
    requires forall k :: k in c'.h.ballots ==> k in c.h.ballots || BallotOk(k, c'.h)
    requires forall t :: t in c'.h.leaders ==> t in c.h.leaders || StartOk(t, c'.h)
    ensures StandInv(c')
  {
    forall m | 0 <= m < |c.servers| ensures CandidateOk(m, c'.servers[m], c'.h) {
      if m != n {
        assert CandidateOk(m, c.servers[m], c.h);
        assert forall t :: (m, t) in c'.h.standLogs ==> (m, t).0 != n;
      }
    }
    forall k | k in c'.h.ballots ensures BallotOk(k, c'.h) {
      if k in c.h.ballots {
        assert BallotOk(k, c.h);
        M.RootedExtends(c.h.voteLogs[k], c.h, c'.h);
      }
    }
    forall t | t in c'.h.leaders ensures StartOk(t, c'.h) {
      assert t in c.h.leaders ==> StartOk(t, c.h);
    }
  }

  lemma QuietStands(c: Cluster, c': Cluster, n: Id)
    requires StandInv(c) && n < |c.servers| && |c'.servers| == |c.servers|
    requires forall m :: 0 <= m < |c.servers| && m != n ==> c'.servers[m] == c.servers[m]
    requires c'.h.ballots == c.h.ballots && c'.h.leaders == c.h.leaders
    requires c'.h.voteLogs == c.h.voteLogs && c'.h.standLogs == c.h.standLogs && M.Extends(c.h, c'.h)
    requires var s, t := c.servers[n], c'.servers[n];
      t.term >= s.term && (t.role.Candidate? ==> s.role.Candidate? && t.term == s.term && t.log == s.log)
    requires forall m :: m in c'.net ==> m in c.net || !m.RequestVote?
    ensures StandInv(c')
  {
    assert CandidateOk(n, c.servers[n], c.h);
    StepStands(c, c', n);
  }

  // ---- What each kind of record does to the history ----------------------

  lemma GrowsTrans(h: History, h': History, h'': History, n: Id)
    requires Grows(h, h', n) && Grows(h', h'', n)
    requires forall k :: k in h.ballots ==> k in h.voteLogs
    ensures Grows(h, h'', n)
  {
    forall t | t in h.termLogs ensures t in h''.termLogs && h.termLogs[t] <= h''.termLogs[t] {
      M.PrefixTrans(h.termLogs[t], h'.termLogs[t], h''.termLogs[t]);
    }
  }

  lemma BallotGrows(h: History, n: Id, term: Term, candidate: Id, log: seq<Entry>)
    ensures Grows(h, Ballot(h, n, term, candidate, log), n)
  {
    var h' := Ballot(h, n, term, candidate, log);
    if (n, term) !in h.ballots {
      assert h'.ballots == h.ballots[(n, term) := candidate];
      assert E.Grows(h, h', n);
      assert M.Extends(h, h');
    }
  }

  lemma CandidacyGrows(n: Id, s: Server, h: History)
    requires E.OneVotePerTerm(n, s, h) && CandidateOk(n, s, h)
    ensures Grows(h, Candidacy(h, n, s), n)
  {
    var k, h' := (n, s.term + 1), Candidacy(h, n, s);
    assert k !in h.ballots && k !in h.standLogs;
    BallotGrows(h, n, s.term + 1, n, s.log);
    assert E.Grows(h, h', n);
    assert M.Extends(h, h');
  }

  /** A new candidate's own ballot and request are in order. */
  lemma CandidacyOk(n: Id, s: Server, h: History)
    requires E.OneVotePerTerm(n, s, h) && CandidateOk(n, s, h) && M.Rooted(s.log, h)
    ensures var h' := Candidacy(h, n, s);
      && CandidateOk(n, Campaign(s, n), h')
      && RequestOk(RequestVote(s.term + 1, n, |s.log|, LastTerm(s.log)), h')
      && forall k :: k in h'.ballots ==> k in h.ballots || BallotOk(k, h')
  {
    var k, h' := (n, s.term + 1), Candidacy(h, n, s);
    assert k !in h.ballots && k !in h.standLogs;
    assert M.Extends(h, h');
    M.RootedExtends(s.log, h, h');
    assert BallotOk(k, h');
  }

  lemma ElectionGrows(n: Id, s: Server, h: History, size: nat, full: bool)
    requires h.termLogs.Keys == h.startLogs.Keys == h.leaders.Keys
    requires CandidateOk(n, s, h) && s.role.Candidate?
    requires |s.votes| >= Majority(size) ==> s.term !in h.leaders
    ensures var after := LeadIfElected(s, size, full);
      var h' := Election(h, n, s, after);
      && Grows(h, h', n) && CandidateOk(n, after, h') && h'.ballots == h.ballots
      && forall t :: t in h'.leaders ==> t in h.leaders || StartOk(t, h')
  {
  }

  lemma BallotStays(k: (Id, Term), h: History, h': History, n: Id)
    requires k in h.ballots && BallotOk(k, h) && Grows(h, h', n)
    ensures BallotOk(k, h')
  {
    M.RootedExtends(h.voteLogs[k], h, h');
  }

  /** A candidacy, followed by an election when the cluster has one server. */
  lemma CampaignGrows(n: Id, s: Server, h: History, size: nat, full: bool)
    requires E.ServerOk(n, s, h, size) && E.ElectedByMajority(h, size) && n < size
    requires CandidateOk(n, s, h) && M.Rooted(s.log, h)
    requires h.termLogs.Keys == h.startLogs.Keys == h.leaders.Keys
    requires forall k :: k in h.ballots ==> k in h.voteLogs
    ensures var after := LeadIfElected(Campaign(s, n), size, full);
      var h' := Election(Candidacy(h, n, s), n, Campaign(s, n), after);
      && Grows(h, h', n) && CandidateOk(n, after, h')
      && RequestOk(RequestVote(s.term + 1, n, |s.log|, LastTerm(s.log)), h')
      && (forall k :: k in h'.ballots ==> k in h.ballots || BallotOk(k, h'))
      && (forall t :: t in h'.leaders ==> t in h.leaders || StartOk(t, h'))
  {
    var mid := Candidacy(h, n, s);
    var h' := Election(mid, n, Campaign(s, n), LeadIfElected(Campaign(s, n), size, full));
    E.CampaignOk(n, s, h, size);
    E.LeadOk(n, Campaign(s, n), mid, size, full);
    CandidacyGrows(n, s, h);
    CandidacyOk(n, s, h);
    ElectionGrows(n, Campaign(s, n), mid, size, full);
    GrowsTrans(h, mid, h', n);
    forall k | k in h'.ballots && k !in h.ballots ensures BallotOk(k, h') {
      BallotStays(k, mid, h', n);
    }
  }

  // ---- Steps -------------------------------------------------------------

  lemma CampaignsStands(c: Cluster, n: Id, full: bool)
    requires StandInv(c) && Enabled(c, Campaigns(n, full))
    requires E.ServerOk(n, c.servers[n], c.h, |c.servers|) && E.ElectedByMajority(c.h, |c.servers|)
    requires M.Rooted(c.servers[n].log, c.h)
    requires c.h.termLogs.Keys == c.h.startLogs.Keys == c.h.leaders.Keys
    ensures StandInv(Campaigning(c, n, full))
  {
    var s, c' := c.servers[n], Campaigning(c, n, full);
    var after := LeadIfElected(Campaign(s, n), |c.servers|, full);
    assert c'.servers[n] == after && c'.h == Election(Candidacy(c.h, n, s), n, Campaign(s, n), after);
    assert c'.net == c.net + {RequestVote(s.term + 1, n, |s.log|, LastTerm(s.log))};
    assert CandidateOk(n, s, c.h);
    assert forall k :: k in c.h.ballots ==> BallotOk(k, c.h);
    CampaignGrows(n, s, c.h, |c.servers|, full);
    StepStands(c, c', n);
  }

  lemma GrantStands(n: Id, s: Server, h: History, m: Message)
    requires E.OneVotePerTerm(n, s, h) && M.Rooted(s.log, h)
    requires m.RequestVote? && RequestOk(m, h) && Grants(s, m)
    ensures var h' := Ballot(h, n, m.term, m.candidate, s.log);
      forall k :: k in h'.ballots ==> k in h.ballots || BallotOk(k, h')
  {
    var h' := Ballot(h, n, m.term, m.candidate, s.log);
    assert M.Extends(h, h');
    M.RootedExtends(s.log, h, h');
    if (n, m.term) !in h.ballots {
      assert BallotOk((n, m.term), h');
    }
  }

  lemma HearsRequestStands(c: Cluster, n: Id, m: Message)
    requires StandInv(c) && Enabled(c, HearsRequest(n, m))
    requires E.OneVotePerTerm(n, c.servers[n], c.h) && M.Rooted(c.servers[n].log, c.h)
    ensures StandInv(Voting(c, n, m))
  {
    var s := c.servers[n];
    assert CandidateOk(n, s, c.h) && RequestOk(m, c.h);
    if Grants(s, m) {
      GrantStands(n, s, c.h, m);
      BallotGrows(c.h, n, m.term, m.candidate, s.log);
    }
    StepStands(c, Voting(c, n, m), n);
  }

  lemma VoteStands(n: Id, s: Server, h: History, size: nat, m: Message, full: bool)
    requires E.ServerOk(n, s, h, size) && E.ElectedByMajority(h, size)
    requires m.VoteReply? && E.MessageOk(m, h) && m.to == n && CandidateOk(n, s, h)
    requires h.termLogs.Keys == h.startLogs.Keys == h.leaders.Keys
    ensures var after := OnVoteReply(s, m, size, full);
      var h' := Election(h, n, s, after);
      && Grows(h, h', n) && CandidateOk(n, after, h') && h'.ballots == h.ballots
      && forall t :: t in h'.leaders ==> t in h.leaders || StartOk(t, h')
  {
    if s.role.Candidate? && m.term == s.term && m.from < size && m.from !in s.votes && m.granted {
      var t := s.(votes := s.votes + {m.from});
      E.LeadOk(n, t, h, size, full);
      ElectionGrows(n, t, h, size, full);
      assert Election(h, n, s, OnVoteReply(s, m, size, full)) == Election(h, n, t, LeadIfElected(t, size, full));
    } else {
      assert Election(h, n, s, OnVoteReply(s, m, size, full)) == h;
    }
  }

  lemma HearsVoteStands(c: Cluster, n: Id, m: Message, full: bool)
    requires StandInv(c) && Enabled(c, HearsVote(n, m, full))
    requires E.ServerOk(n, c.servers[n], c.h, |c.servers|) && E.ElectedByMajority(c.h, |c.servers|)
    requires E.MessageOk(m, c.h) && c.h.termLogs.Keys == c.h.startLogs.Keys == c.h.leaders.Keys
    ensures StandInv(Counting(c, n, m, full))
  {
    assert CandidateOk(n, c.servers[n], c.h);
    VoteStands(n, c.servers[n], c.h, |c.servers|, m, full);
    StepStands(c, Counting(c, n, m, full), n);
  }

  /** After an append or its reply a server that is a candidate has not changed. */
  lemma CandidatesUnmoved(s: Server, n: Id, size: nat, m: Message, room: nat)
    ensures m.Append? ==> var t := OnAppend(s, m, room); t.term >= s.term && !(t.role.Candidate? && t != s)
    ensures m.AppendReply? ==> var t := OnAppendReply(s, n, m, size); t.term >= s.term && !(t.role.Candidate? && t != s)
  {
    if m.AppendReply? && m.term == s.term && s.role.Leader? && m.from < size && m.success {
      E.AdvanceCommitOnlyCommits(Counted(s, m), n, size, |s.log|);
    }
  }

  /** Everything else leaves candidates, ballots and starting logs alone. */
  lemma OtherStands(c: Cluster, ev: Event)
    requires StandInv(c) && Enabled(c, ev) && !ev.Campaigns? && !ev.HearsRequest? && !ev.HearsVote?
    requires ev.Submits? ==> M.ServerLogOk(ev.n, c.servers[ev.n], c.h)
    ensures StandInv(Next(c, ev))
  {
    if ev.HearsAppend? || ev.HearsAppendReply? {
      CandidatesUnmoved(c.servers[ev.n], ev.n, |c.servers|, ev.m, if ev.HearsAppend? then ev.room else 0);
    }
    E.AdvanceCommitOnlyCommits(c.servers[ev.n], ev.n, |c.servers|, |c.servers[ev.n].log|);
    QuietStands(c, Next(c, ev), ev.n);
  }

  lemma NextStands(c: Cluster, ev: Event)
    requires Inv(c) && Enabled(c, ev)
    ensures StandInv(Next(c, ev))
  {
    assert E.ServerOk(ev.n, c.servers[ev.n], c.h, |c.servers|) && M.ServerLogOk(ev.n, c.servers[ev.n], c.h);
    match ev {
      case Campaigns(n, full) => CampaignsStands(c, n, full);
      case HearsRequest(n, m) => HearsRequestStands(c, n, m);
      case HearsVote(n, m, full) => HearsVoteStands(c, n, m, full);
      case _ => OtherStands(c, ev);
    }
  }

  lemma NextOk(c: Cluster, ev: Event)
    requires Inv(c) && Enabled(c, ev)
    ensures Inv(Next(c, ev))
  {
    E.NextOk(c, ev);
    M.NextLogs(c, ev);
    NextStands(c, ev);
  }
}
