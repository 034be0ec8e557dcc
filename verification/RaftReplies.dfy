/**
 * When a follower's reply is right: a rule it could check itself, exact for all it can know, and
 * a follower that is once in step with the leader of a term, which stays so.
 */
module RaftReplies {
  import opened Basics
  import opened Raft
  import E = RaftElection
  import M = RaftMatching
  import C = RaftCompleteness
  import N = RaftNextIndex

  // ---- A rule the follower can check -------------------------------------

  /** The log end a reply reports lies within what the message covered, or in an entry of its term. */
  predicate Truthful(s: Server, m: Message, room: nat)
    requires m.Append?
  {
    var log := OnAppend(s, m, room).log;
    |log| <= m.prevIndex + |m.entries| || LastTerm(log) == m.term
  }

  /** A truthful reply reports only what follower and leader share. */
  lemma TruthfulInLead(n: Id, s: Server, h: History, m: Message, room: nat)
    requires M.ServerLogOk(n, s, h) && m.Append? && M.AppendOk(m, h) && M.TermLogOk(m.term, h)
    requires Accepted(s, m) && Truthful(s, m, room)
    ensures N.InLead(s, m, room, h)
  {
    var lead, r := h.termLogs[m.term], OnAppend(s, m, room).log;
    M.ConsistentAgrees(s.log, m, h);
    M.MergeResult(s.log, m.prevIndex, m.entries, room, lead, [], h);
    if r == s.log && |r| > m.prevIndex + |m.entries| {
      assert s.log[..|r|] <= lead;
      assert s.log[..|r|] == r;
    }
  }

  /** A past that explains what the follower and the message look like. */
  ghost predicate Explains(h: History, n: Id, s: Server, m: Message) {
    && M.ServerLogOk(n, s, h) && M.AppendOk(m, h)
    && (m.Append? ==> m.term in h.termLogs)
    && forall t :: t in h.termLogs ==> M.TermLogOk(t, h)
  }

  /** The past up to a term, with a leader of that term whose log is given. */
  ghost function UpTo(h: History, term: Term, lead: seq<Entry>): History {
    NoHistory.(termLogs := (map t | t in h.termLogs && t < term :: h.termLogs[t])[term := lead],
               startLogs := (map t | t in h.startLogs && t < term :: h.startLogs[t])[term := lead])
  }

  lemma RootedUpTo(log: seq<Entry>, h: History, term: Term, lead: seq<Entry>)
    requires M.Rooted(log, h) && forall i :: 0 <= i < |log| ==> log[i].term < term
    ensures M.Rooted(log, UpTo(h, term, lead))
  {
  }

  lemma EarlierLeader(t: Term, h: History, term: Term, lead: seq<Entry>)
    requires t in h.termLogs && M.TermLogOk(t, h) && t < term
    ensures M.TermLogOk(t, UpTo(h, term, lead))
  {
    M.TermsBounded(t, h);
    RootedUpTo(h.termLogs[t], h, term, lead);
  }

  /** A log that ends before a term holds nothing of that term. */
  lemma AllEarlier(log: seq<Entry>, h: History, term: Term)
    requires M.Rooted(log, h) && forall t :: t in h.termLogs ==> M.TermLogOk(t, h)
    requires LastTerm(log) < term
    ensures forall i :: 0 <= i < |log| ==> log[i].term < term
  {
    forall i | 0 <= i < |log| ensures log[i].term < term {
      C.LastTermBounds(log, h, i);
    }
  }

  /** An untruthful reply: the message changed nothing and covers only part of the follower's older log. */
  lemma Untruthful(h: History, n: Id, s: Server, m: Message, room: nat)
    requires M.ServerLogOk(n, s, h) && m.Append? && M.AppendOk(m, h) && M.TermLogOk(m.term, h)
    requires Accepted(s, m) && !Truthful(s, m, room)
    ensures var lastNew := m.prevIndex + |m.entries|;
      && lastNew < |s.log| && OnAppend(s, m, room).log == s.log && LastTerm(s.log) < m.term
      && s.log[..lastNew] == h.termLogs[m.term][..lastNew]
  {
    M.ConsistentAgrees(s.log, m, h);
    M.MergeResult(s.log, m.prevIndex, m.entries, room, h.termLogs[m.term], [], h);
    assert s.log[|s.log| - 1].term <= s.term;
  }

  /** It may come from a follower whose leader's log ends where the message does. */
  lemma ShortLeader(h: History, n: Id, s: Server, m: Message, lead: seq<Entry>)
    requires m.Append? && m.term >= s.term && Explains(h, n, s, m) && !s.role.Leader?
    requires m.prevIndex + |m.entries| < |s.log| && lead == s.log[..m.prevIndex + |m.entries|]
    requires lead == h.termLogs[m.term][..m.prevIndex + |m.entries|] && LastTerm(s.log) < m.term
    ensures Explains(UpTo(h, m.term, lead), n, s, m)
  {
    AllEarlier(s.log, h, m.term);
    M.RootedPrefix(s.log, |lead|, h);
    var h' := UpTo(h, m.term, lead);
    RootedUpTo(s.log, h, m.term, lead);
    RootedUpTo(lead, h, m.term, lead);
    forall t | t in h'.termLogs ensures M.TermLogOk(t, h') {
      if t < m.term {
        EarlierLeader(t, h, m.term, lead);
      }
    }
    PartOf(m, h.termLogs[m.term], lead);
  }

  /** A piece of a log, and the term before it, are the same in a prefix that reaches as far. */
  lemma PartOf(m: Message, log: seq<Entry>, lead: seq<Entry>)
    requires m.Append? && m.prevIndex + |m.entries| == |lead| && lead <= log
    ensures lead[m.prevIndex..m.prevIndex + |m.entries|] == log[m.prevIndex..m.prevIndex + |m.entries|]
    ensures TermAt(lead, m.prevIndex) == TermAt(log, m.prevIndex)
  {
  }

  /**
   * A follower can tell from its own log and the message alone whether its reply is right: exactly when
   * the reply is truthful does it share all it reports with the leader, whatever the leader's log is.
   */
  lemma ReplyExact(h: History, n: Id, s: Server, m: Message, room: nat)
    requires m.Append? && Accepted(s, m) && Explains(h, n, s, m) && !s.role.Leader?
    ensures Truthful(s, m, room) <==>
            (forall g :: Explains(g, n, s, m) ==> OnAppend(s, m, room).log <= g.termLogs[m.term])
  {
    if Truthful(s, m, room) {
      forall g | Explains(g, n, s, m) ensures OnAppend(s, m, room).log <= g.termLogs[m.term] {
        assert M.TermLogOk(m.term, g);
        TruthfulInLead(n, s, g, m, room);
      }
    } else {
      assert M.TermLogOk(m.term, h);
      Untruthful(h, n, s, m, room);
      var lead := s.log[..m.prevIndex + |m.entries|];
      ShortLeader(h, n, s, m, lead);
      assert !(s.log <= UpTo(h, m.term, lead).termLogs[m.term]);
    }
  }

  // ---- Once in step ------------------------------------------------------

  /** Server n is in a term and its log is part of that term's leader's. */
  ghost predicate InStep(c: Cluster, n: Id, t: Term) {
    n < |c.servers| && c.servers[n].term == t && t in c.h.termLogs && c.servers[n].log <= c.h.termLogs[t]
  }

  /** A leader's log of a term only grows. */
  lemma NextExtends(c: Cluster, ev: Event, t: Term)
    requires M.Inv(c) && Enabled(c, ev) && t in c.h.termLogs
    ensures t in Next(c, ev).h.termLogs && c.h.termLogs[t] <= Next(c, ev).h.termLogs[t]
  {
    match ev {
      case Campaigns(n, full) => N.CampaignIsFresh(c, n, full);
      case HearsVote(n, m, full) => N.VoteIsFresh(c, n, m, full);
      case Submits(n, _) => assert M.ServerLogOk(n, c.servers[n], c.h);
      case _ =>
    }
    FreshExtends(c, ev, t);
  }

  lemma FreshExtends(c: Cluster, ev: Event, t: Term)
    requires Enabled(c, ev) && t in c.h.termLogs
    requires ev.Campaigns? && |{ev.n}| >= Majority(|c.servers|) ==> c.servers[ev.n].term + 1 !in c.h.termLogs
    requires ev.HearsVote? && C.Decides(c.servers[ev.n], ev.m, |c.servers|) ==> c.servers[ev.n].term !in c.h.termLogs
    requires ev.Submits? && t == c.servers[ev.n].term ==> c.servers[ev.n].log == c.h.termLogs[t]
    ensures t in Next(c, ev).h.termLogs && c.h.termLogs[t] <= Next(c, ev).h.termLogs[t]
  {
    match ev {
      case Campaigns(n, full) => N.CampaignState(c, n, full);
      case HearsVote(n, m, full) => N.CountState(c, n, m, full);
      case _ =>
    }
  }

  /** An accepted append of the term leaves a follower in step, wherever it starts and ends. */
  lemma AppendInStep(n: Id, s: Server, h: History, m: Message, room: nat)
    requires M.ServerLogOk(n, s, h) && m.Append? && M.AppendOk(m, h) && M.TermLogOk(m.term, h)
    requires Accepted(s, m) && s.log <= h.termLogs[m.term]
    ensures N.InLead(s, m, room, h)
  {
    M.MergeResult(s.log, m.prevIndex, m.entries, room, h.termLogs[m.term], [], h);
  }

  /** Whatever happens next, a follower in step keeps its term and stays in step, or moves on to a later term. */
  lemma NextInStep(c: Cluster, ev: Event, n: Id, t: Term)
    requires M.Inv(c) && Enabled(c, ev) && InStep(c, n, t)
    ensures n < |Next(c, ev).servers| && (InStep(Next(c, ev), n, t) || Next(c, ev).servers[n].term > t)
  {
    NextExtends(c, ev, t);
    var s, lead, lead' := c.servers[n], c.h.termLogs[t], Next(c, ev).h.termLogs[t];
    M.PrefixTrans(s.log, lead, lead');
    if ev.n == n {
      OwnInStep(c, ev, t);
    }
  }

  /** The log of the server that acts is kept, lost in a restart, its own as leader, or merged with the leader's. */
  lemma OwnInStep(c: Cluster, ev: Event, t: Term)
    requires M.Inv(c) && Enabled(c, ev) && InStep(c, ev.n, t)
    requires t in Next(c, ev).h.termLogs && c.servers[ev.n].log <= Next(c, ev).h.termLogs[t]
    ensures var s' := Next(c, ev).servers[ev.n]; s'.term > t || (s'.term == t && s'.log <= Next(c, ev).h.termLogs[t])
  {
    match ev {
      case HearsVote(n, m, full) =>
        N.VoteIsFresh(c, n, m, full);
        N.CountState(c, n, m, full);
      case HearsAppend(n, m, room) => MergeInStep(c, n, m, room, t);
      case Submits(n, _) => assert M.ServerLogOk(n, c.servers[n], c.h);
      case _ => KeptInStep(c, ev, t);
    }
  }

  lemma KeptInStep(c: Cluster, ev: Event, t: Term)
    requires Enabled(c, ev) && InStep(c, ev.n, t) && !ev.HearsVote? && !ev.HearsAppend? && !ev.Submits?
    ensures var s, s' := c.servers[ev.n], Next(c, ev).servers[ev.n];
      s'.term > t || (s'.term == t && (s'.log == s.log || s'.log == []))
  {
    var s := c.servers[ev.n];
    match ev {
      case Campaigns(n, full) => N.CampaignState(c, n, full);
      case HearsAppendReply(n, m) => N.ReplyState(s, n, m, |c.servers|);
      case Recounts(n) => E.AdvanceCommitOnlyCommits(s, n, |c.servers|, |s.log|);
      case _ =>
    }
  }

  lemma MergeInStep(c: Cluster, n: Id, m: Message, room: nat, t: Term)
    requires M.Inv(c) && Enabled(c, HearsAppend(n, m, room)) && InStep(c, n, t)
    ensures var s' := OnAppend(c.servers[n], m, room); s'.term > t || (s'.term == t && s'.log <= c.h.termLogs[t])
  {
    assert M.ServerLogOk(n, c.servers[n], c.h) && M.AppendOk(m, c.h) && M.TermLogOk(m.term, c.h);
    if Accepted(c.servers[n], m) && m.term == t {
      AppendInStep(n, c.servers[n], c.h, m, room);
    }
  }

  /** A follower once in step with the leader of a term is in step for as long as it is in that term. */
  lemma {:induction false} OnceInStep(c: Cluster, evs: seq<Event>, n: Id, t: Term)
    requires M.Inv(c) && ValidRun(c, evs) && n < |c.servers|
    requires InStep(c, n, t) || c.servers[n].term > t
    ensures n < |Run(c, evs).servers| && (InStep(Run(c, evs), n, t) || Run(c, evs).servers[n].term > t)
    decreases |evs|
  {
    if evs != [] {
      E.NextOk(c, evs[0]);
      M.NextLogs(c, evs[0]);
      if InStep(c, n, t) {
        NextInStep(c, evs[0], n, t);
      } else {
        TermsRise(c, evs[0], n);
      }
      OnceInStep(Next(c, evs[0]), evs[1..], n, t);
    }
  }

  lemma TermsRise(c: Cluster, ev: Event, n: Id)
    requires Enabled(c, ev) && n < |c.servers|
    ensures n < |Next(c, ev).servers| && Next(c, ev).servers[n].term >= c.servers[n].term
  {
    var s := c.servers[ev.n];
    E.AdvanceCommitOnlyCommits(s, ev.n, |c.servers|, |s.log|);
    if ev.HearsAppendReply? && ev.m.term == s.term && s.role.Leader? && ev.m.from < |c.servers| && ev.m.success {
      E.AdvanceCommitOnlyCommits(Counted(s, ev.m), ev.n, |c.servers|, |s.log|);
    }
  }
}
