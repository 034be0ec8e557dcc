/**
 * State Machine Safety: over every careful run, what two servers have committed they have
 * committed alike.
 */
module RaftSafety {
  import opened Basics
  import opened Raft
  import E = RaftElection
  import M = RaftMatching
  import S = RaftStanding
  import C = RaftCompleteness

  /** The first n entries of a log are within what is committed in term t up to index k. */
  ghost predicate Backs(h: History, size: nat, log: seq<Entry>, n: nat, t: Term, k: nat) {
    C.Committed(h, size, t, k) && n <= k && n <= |log| && log[..n] == h.termLogs[t][..n]
  }

  ghost predicate Backed(h: History, size: nat, log: seq<Entry>, n: nat, upto: Term) {
    n > 0 ==> exists t: Term, k: nat :: t <= upto && Backs(h, size, log, n, t, k)
  }

  ghost predicate CommitInv(c: Cluster) {
    && (forall n :: 0 <= n < |c.servers| ==>
          Backed(c.h, |c.servers|, c.servers[n].log, c.servers[n].commit, c.servers[n].term))
    && (forall m :: m in c.net && m.Append? ==>
          m.term in c.h.termLogs && Backed(c.h, |c.servers|, c.h.termLogs[m.term], m.commit, m.term))
  }

  ghost predicate Inv(c: Cluster) {
    C.Inv(c) && CommitInv(c)
  }

  ghost predicate Careful(c: Cluster, ev: Event)
    requires Enabled(c, ev)
  {
    C.Minds(c, ev, C.NoRestart) && C.Minds(c, ev, C.Fits) && C.Minds(c, ev, C.Held)
  }

  lemma CommittedStays(h: History, h': History, n: Id, size: nat, t: Term, k: nat)
    requires C.Committed(h, size, t, k) && C.Grows(h, h', n)
    ensures C.Committed(h', size, t, k)
  {
    var q :| E.IsQuorum(q, size) && C.AllAcked(h, q, t, k);
    assert C.AllAcked(h', q, t, k);
    assert h.termLogs[t] <= h'.termLogs[t];
  }

  /** What is committed in a log stays so in any log that keeps those entries. */
  lemma BackedStays(h: History, h': History, n: Id, size: nat, log: seq<Entry>, log': seq<Entry>, c: nat,
                    upto: Term, later: Term)
    requires Backed(h, size, log, c, upto) && C.Grows(h, h', n) && upto <= later
    requires c <= |log| ==> c <= |log'| && log'[..c] == log[..c]
    ensures Backed(h', size, log', c, later)
  {
    if c > 0 {
      var t: Term, k: nat :| t <= upto && Backs(h, size, log, c, t, k);
      CommittedStays(h, h', n, size, t, k);
      assert h.termLogs[t] <= h'.termLogs[t];
      assert Backs(h', size, log', c, t, k);
    }
  }

  lemma StepCommits(c: Cluster, c': Cluster, n: Id)
    requires CommitInv(c) && n < |c.servers| && |c'.servers| == |c.servers|
    requires forall m :: 0 <= m < |c.servers| && m != n ==> c'.servers[m] == c.servers[m]
    requires C.Grows(c.h, c'.h, n)
    requires Backed(c'.h, |c.servers|, c'.servers[n].log, c'.servers[n].commit, c'.servers[n].term)
    requires forall m :: m in c'.net && m.Append? && m !in c.net ==>
      m.term in c'.h.termLogs && Backed(c'.h, |c.servers|, c'.h.termLogs[m.term], m.commit, m.term)
    ensures CommitInv(c')
  {
    forall m | 0 <= m < |c.servers|
      ensures Backed(c'.h, |c.servers|, c'.servers[m].log, c'.servers[m].commit, c'.servers[m].term)
    {
      if m != n {
        var s := c.servers[m];
        BackedStays(c.h, c'.h, n, |c.servers|, s.log, s.log, s.commit, s.term, s.term);
      }
    }
    forall m | m in c'.net && m.Append?
      ensures m.term in c'.h.termLogs && Backed(c'.h, |c.servers|, c'.h.termLogs[m.term], m.commit, m.term)
    {
      if m in c.net {
        assert c.h.termLogs[m.term] <= c'.h.termLogs[m.term];
        BackedStays(c.h, c'.h, n, |c.servers|, c.h.termLogs[m.term], c'.h.termLogs[m.term], m.commit, m.term, m.term);
      }
    }
  }

  /** A server whose log only grows and whose commit index stays keeps its commitment. */
  lemma QuietCommits(c: Cluster, c': Cluster, n: Id)
    requires CommitInv(c) && n < |c.servers| && |c'.servers| == |c.servers|
    requires forall m :: 0 <= m < |c.servers| && m != n ==> c'.servers[m] == c.servers[m]
    requires C.Grows(c.h, c'.h, n)
    requires var s, t := c.servers[n], c'.servers[n]; s.log <= t.log && t.commit == s.commit && t.term >= s.term
    requires forall m :: m in c'.net && m.Append? ==> m in c.net
    ensures CommitInv(c')
  {
    var s, t := c.servers[n], c'.servers[n];
    BackedStays(c.h, c'.h, n, |c.servers|, s.log, t.log, s.commit, s.term, t.term);
    StepCommits(c, c', n);
  }

  // ---- A leader commits --------------------------------------------------

  /** Advancing the commit index keeps it or lands on an entry of the current term held by a majority. */
  lemma {:induction false} AdvanceResult(s: Server, self: Id, size: nat, n: nat)
    requires n <= |s.log|
    ensures var after := AdvanceCommit(s, self, size, n);
      && after == s.(commit := after.commit)
      && (after.commit == s.commit
          || (0 < after.commit <= n && TermAt(s.log, after.commit) == s.term
              && |Holders(s, self, size, after.commit)| >= Majority(size)))
    decreases n
  {
    if n > s.commit && !(TermAt(s.log, n) == s.term && |Holders(s, self, size, n)| >= Majority(size)) {
      AdvanceResult(s, self, size, n - 1);
    }
  }

  /** What a majority has had in step with a leader is backed in the leader's log. */
  lemma LeaderCommits(n: Id, s: Server, h: History, size: nat, k: nat)
    requires M.ServerLogOk(n, s, h) && s.role.Leader? && k <= |s.log| && C.Committed(h, size, s.term, k)
    ensures Backed(h, size, s.log, k, s.term)
  {
    assert Backs(h, size, s.log, k, s.term, k);
  }

  lemma ReplyCommits(c: Cluster, n: Id, m: Message)
    requires CommitInv(c) && Enabled(c, HearsAppendReply(n, m)) && C.Minds(c, HearsAppendReply(n, m), C.Held)
    requires M.ServerLogOk(n, c.servers[n], c.h) && C.Grows(c.h, c.h, n)
    ensures CommitInv(Next(c, HearsAppendReply(n, m)))
  {
    var s, size, c' := c.servers[n], |c.servers|, Next(c, HearsAppendReply(n, m));
    assert Backed(c.h, size, s.log, s.commit, s.term);
    if m.term == s.term && s.role.Leader? && m.from < size && m.success {
      AdvanceResult(Counted(s, m), n, size, |s.log|);
      var k := c'.servers[n].commit;
      if k != s.commit {
        LeaderCommits(n, s, c.h, size, k);
      }
      StepCommits(c, c', n);
    } else {
      QuietCommits(c, c', n);
    }
  }

  lemma RecountCommits(c: Cluster, n: Id)
    requires CommitInv(c) && Enabled(c, Recounts(n)) && C.Minds(c, Recounts(n), C.Held)
    requires M.ServerLogOk(n, c.servers[n], c.h) && C.Grows(c.h, c.h, n)
    ensures CommitInv(Next(c, Recounts(n)))
  {
    var s, size, c' := c.servers[n], |c.servers|, Next(c, Recounts(n));
    assert Backed(c.h, size, s.log, s.commit, s.term);
    AdvanceResult(s, n, size, |s.log|);
    if c'.servers[n].commit != s.commit {
      LeaderCommits(n, s, c.h, size, c'.servers[n].commit);
    }
    StepCommits(c, c', n);
  }

  // ---- A follower commits ------------------------------------------------

  /** What is committed in a term is in the log of a leader of a later term. */
  lemma CommittedInLaterLead(c: Cluster, t: Term, k: nat, u: Term)
    requires C.Inv(c) && C.Committed(c.h, |c.servers|, t, k) && u in c.h.leaders && t < u
    ensures u in c.h.termLogs && C.Prefix(c.h, t, k) <= c.h.termLogs[u]
  {
    C.LeaderCompleteness(c, t, k, u);
    C.StartFacts(c, u);
    M.PrefixTrans(C.Prefix(c.h, t, k), c.h.startLogs[u], c.h.termLogs[u]);
  }

  /** What is committed up to a term is in the log of any leader of that term or a later one. */
  ghost predicate LeadsComplete(h: History, size: nat) {
    forall t: Term, k: nat, u: Term :: C.Committed(h, size, t, k) && u in h.leaders && t <= u ==>
      u in h.termLogs && C.Prefix(h, t, k) <= h.termLogs[u]
  }

  lemma CommittedInLeads(c: Cluster)
    requires C.Inv(c)
    ensures LeadsComplete(c.h, |c.servers|)
  {
    forall t: Term, k: nat, u: Term | C.Committed(c.h, |c.servers|, t, k) && u in c.h.leaders && t <= u
      ensures u in c.h.termLogs && C.Prefix(c.h, t, k) <= c.h.termLogs[u]
    {
      if t < u {
        CommittedInLaterLead(c, t, k, u);
      }
    }
  }

  /** Merging a leader's entries keeps what the follower had committed. */
  lemma AppendKeepsCommit(n: Id, s: Server, h: History, size: nat, m: Message, room: nat)
    requires LeadsComplete(h, size) && h.termLogs.Keys == h.leaders.Keys && m.Append?
    requires Accepted(s, m)
    requires M.ServerLogOk(n, s, h) && M.AppendOk(m, h) && M.TermLogOk(m.term, h)
    requires Backed(h, size, s.log, s.commit, s.term)
    ensures Backed(h, size, OnAppend(s, m, room).log, s.commit, m.term)
  {
    var i := s.commit;
    if i > 0 {
      var t: Term, k: nat :| t <= s.term && Backs(h, size, s.log, i, t, k);
      var shared := s.log[..i];
      assert shared <= C.Prefix(h, t, k);
      M.PrefixTrans(shared, C.Prefix(h, t, k), h.termLogs[m.term]);
      C.SharedStays(n, s, h, m, room, shared);
      assert Backs(h, size, OnAppend(s, m, room).log, i, t, k);
    }
  }

  /** The leader's commit index, cut at the last new entry, is backed in the follower's log. */
  lemma AppendAdoptsCommit(n: Id, s: Server, h: History, size: nat, m: Message, room: nat, i: nat)
    requires M.ServerLogOk(n, s, h) && m.Append? && M.AppendOk(m, h) && M.TermLogOk(m.term, h)
    requires Accepted(s, m) && i <= m.commit && i <= m.prevIndex + |m.entries| && i <= |OnAppend(s, m, room).log|
    requires Backed(h, size, h.termLogs[m.term], m.commit, m.term)
    ensures Backed(h, size, OnAppend(s, m, room).log, i, m.term)
  {
    if i > 0 {
      var lead, r := h.termLogs[m.term], OnAppend(s, m, room).log;
      C.AppendShares(n, s, h, m, room);
      assert r[..i] == lead[..i];
      var t: Term, k: nat :| t <= m.term && Backs(h, size, lead, m.commit, t, k);
      assert lead[..i] == lead[..m.commit][..i] == h.termLogs[t][..m.commit][..i] == h.termLogs[t][..i];
      assert Backs(h, size, r, i, t, k);
    }
  }

  lemma AcceptedCommits(n: Id, s: Server, h: History, size: nat, m: Message, room: nat)
    requires LeadsComplete(h, size) && h.termLogs.Keys == h.leaders.Keys && m.Append?
    requires Accepted(s, m) && C.Adopted(m) <= |OnAppend(s, m, room).log|
    requires M.ServerLogOk(n, s, h) && M.AppendOk(m, h) && M.TermLogOk(m.term, h)
    requires Backed(h, size, s.log, s.commit, s.term) && Backed(h, size, h.termLogs[m.term], m.commit, m.term)
    ensures Backed(h, size, OnAppend(s, m, room).log, OnAppend(s, m, room).commit, m.term)
  {
    var known := C.Adopted(m);
    assert OnAppend(s, m, room).commit == if known > s.commit then known else s.commit;
    if known > s.commit {
      AppendAdoptsCommit(n, s, h, size, m, room, known);
    } else {
      AppendKeepsCommit(n, s, h, size, m, room);
    }
  }

  lemma AcceptedStep(c: Cluster, c': Cluster, n: Id, m: Message, room: nat, after: Server, reply: Message)
    requires CommitInv(c) && n < |c.servers| && m in c.net && m.Append? && !reply.Append?
    requires LeadsComplete(c.h, |c.servers|) && c.h.termLogs.Keys == c.h.leaders.Keys
    requires Accepted(c.servers[n], m) && C.Adopted(m) <= |OnAppend(c.servers[n], m, room).log|
    requires M.ServerLogOk(n, c.servers[n], c.h) && M.AppendOk(m, c.h) && M.TermLogOk(m.term, c.h)
    requires after == OnAppend(c.servers[n], m, room) && after.term == m.term
    requires c'.servers == c.servers[n := after] && c'.net == c.net + {reply} && C.Grows(c.h, c'.h, n)
    ensures CommitInv(c')
  {
    var s, size := c.servers[n], |c.servers|;
    AcceptedCommits(n, s, c.h, size, m, room);
    BackedStays(c.h, c'.h, n, size, after.log, after.log, after.commit, m.term, m.term);
    StepCommits(c, c', n);
  }

  lemma AppendCommits(c: Cluster, n: Id, m: Message, room: nat)
    requires CommitInv(c) && Enabled(c, HearsAppend(n, m, room)) && C.Minds(c, HearsAppend(n, m, room), C.Fits)
    requires LeadsComplete(c.h, |c.servers|) && c.h.termLogs.Keys == c.h.leaders.Keys
    requires M.ServerLogOk(n, c.servers[n], c.h) && M.AppendOk(m, c.h) && M.TermLogOk(m.term, c.h)
    requires C.Grows(c.h, Appending(c, n, m, room).h, n)
    ensures CommitInv(Appending(c, n, m, room))
  {
    var s, c' := c.servers[n], Appending(c, n, m, room);
    if Accepted(s, m) {
      var after := OnAppend(s, m, room);
      C.AcceptedState(c, n, m, room);
      AcceptedStep(c, c', n, m, room, after, AppendReply(n, m.leader, m.term, true, |after.log|, NoHint));
    } else {
      QuietCommits(c, c', n);
    }
  }

  // ---- All steps ---------------------------------------------------------

  lemma SendsCommits(c: Cluster, n: Id, to: Id)
    requires CommitInv(c) && Enabled(c, Sends(n, to))
    requires M.ServerLogOk(n, c.servers[n], c.h) && C.Grows(c.h, c.h, n)
    ensures CommitInv(Sending(c, n, to))
  {
    StepCommits(c, Sending(c, n, to), n);
  }

  /** Elections and votes leave logs and commit indices alone, but for a new leader's no-op. */
  lemma ElectionLogs(c: Cluster, ev: Event)
    requires Enabled(c, ev) && (ev.Campaigns? || ev.HearsRequest? || ev.HearsVote? || ev.Submits? || ev.LosesContact?)
    ensures var s, t := c.servers[ev.n], Next(c, ev).servers[ev.n];
      s.log <= t.log && t.commit == s.commit && t.term >= s.term
    ensures forall m :: m in Next(c, ev).net && m.Append? ==> m in c.net
    ensures |Next(c, ev).servers| == |c.servers|
    ensures forall m :: 0 <= m < |c.servers| && m != ev.n ==> Next(c, ev).servers[m] == c.servers[m]
  {
  }

  lemma NextCommits(c: Cluster, ev: Event)
    requires CommitInv(c) && Enabled(c, ev) && Careful(c, ev) && C.Grows(c.h, Next(c, ev).h, ev.n)
    requires LeadsComplete(c.h, |c.servers|) && c.h.termLogs.Keys == c.h.leaders.Keys
    requires M.ServerLogOk(ev.n, c.servers[ev.n], c.h)
    requires ev.HearsAppend? ==> M.AppendOk(ev.m, c.h) && M.TermLogOk(ev.m.term, c.h)
    ensures CommitInv(Next(c, ev))
  {
    match ev {
      case HearsAppend(n, m, room) => AppendCommits(c, n, m, room);
      case HearsAppendReply(n, m) => ReplyCommits(c, n, m);
      case Recounts(n) => RecountCommits(c, n);
      case Sends(n, to) => SendsCommits(c, n, to);
      case Campaigns(_, _) | HearsRequest(_, _) | HearsVote(_, _, _) | Submits(_, _) | LosesContact(_) =>
        ElectionLogs(c, ev);
        QuietCommits(c, Next(c, ev), ev.n);
    }
  }

  /** The facts about the acting server and the message it hears that a step's proof needs. */
  lemma StepFacts(c: Cluster, ev: Event)
    requires C.Inv(c) && Enabled(c, ev)
    ensures c.h.termLogs.Keys == c.h.leaders.Keys
    ensures M.ServerLogOk(ev.n, c.servers[ev.n], c.h)
    ensures ev.HearsAppend? ==> M.AppendOk(ev.m, c.h) && M.TermLogOk(ev.m.term, c.h)
  {
    assert C.ServerAcksOk(ev.n, c.servers[ev.n], c.h);
  }

  lemma NextInv(c: Cluster, ev: Event)
    requires Inv(c) && Enabled(c, ev) && Careful(c, ev)
    ensures Inv(Next(c, ev)) && C.Grows(c.h, Next(c, ev).h, ev.n)
  {
    S.NextOk(c, ev);
    C.NextAcks(c, ev);
    CommittedInLeads(c);
    StepFacts(c, ev);
    NextCommits(c, ev);
  }

  // ---- Runs --------------------------------------------------------------

  /** Every event of a run takes one kind of care. */
  ghost predicate RunMinds(c: Cluster, evs: seq<Event>, care: C.Care)
    requires ValidRun(c, evs)
    decreases |evs|
  {
    evs != [] ==> C.Minds(c, evs[0], care) && RunMinds(Next(c, evs[0]), evs[1..], care)
  }

  /** No restarts, room for what is committed, and leaders that commit what a majority holds. */
  ghost predicate CarefulRun(c: Cluster, evs: seq<Event>)
    requires ValidRun(c, evs)
  {
    RunMinds(c, evs, C.NoRestart) && RunMinds(c, evs, C.Fits) && RunMinds(c, evs, C.Held)
  }

  lemma {:induction false} RunInv(c: Cluster, evs: seq<Event>)
    requires Inv(c) && ValidRun(c, evs) && CarefulRun(c, evs)
    ensures Inv(Run(c, evs)) && |Run(c, evs).servers| == |c.servers|
    decreases |evs|
  {
    if evs != [] {
      NextInv(c, evs[0]);
      RunInv(Next(c, evs[0]), evs[1..]);
    }
  }

  /** What is committed stays committed, as the same entries, for the rest of every run. */
  lemma {:induction false} CommittedForever(c: Cluster, evs: seq<Event>, t: Term, k: nat)
    requires Inv(c) && ValidRun(c, evs) && CarefulRun(c, evs) && C.Committed(c.h, |c.servers|, t, k)
    ensures C.Committed(Run(c, evs).h, |c.servers|, t, k)
    ensures c.h.termLogs[t] <= Run(c, evs).h.termLogs[t]
    decreases |evs|
  {
    if evs != [] {
      var c' := Next(c, evs[0]);
      NextInv(c, evs[0]);
      CommittedStays(c.h, c'.h, evs[0].n, |c.servers|, t, k);
      CommittedForever(c', evs[1..], t, k);
      M.PrefixTrans(c.h.termLogs[t], c'.h.termLogs[t], Run(c, evs).h.termLogs[t]);
    }
  }

  lemma StartsSafe(size: nat, cap: nat, batch: nat)
    ensures Inv(NewCluster(size, cap, batch))
  {
  }

  /** Two commitments agree on every index they share. */
  lemma CommitmentsAgree(h: History, size: nat, t: Term, k: nat, u: Term, l: nat, i: nat)
    requires LeadsComplete(h, size) && h.termLogs.Keys == h.leaders.Keys
    requires C.Committed(h, size, t, k) && C.Committed(h, size, u, l) && i < k && i < l
    ensures h.termLogs[t][i] == h.termLogs[u][i]
  {
    if t <= u {
      assert C.Prefix(h, t, k)[i] == h.termLogs[u][i];
    } else {
      assert C.Prefix(h, u, l)[i] == h.termLogs[t][i];
    }
  }

  /** The commitment behind a server's commit index. */
  lemma CommitmentOf(c: Cluster, n: Id, i: nat) returns (t: Term, k: nat)
    requires CommitInv(c) && n < |c.servers| && i < c.servers[n].commit
    ensures C.Committed(c.h, |c.servers|, t, k) && i < k
    ensures i < |c.servers[n].log| && c.servers[n].log[i] == c.h.termLogs[t][i]
  {
    var s := c.servers[n];
    assert Backed(c.h, |c.servers|, s.log, s.commit, s.term);
    t, k :| t <= s.term && Backs(c.h, |c.servers|, s.log, s.commit, t, k);
    assert s.log[i] == s.log[..s.commit][i] == c.h.termLogs[t][..s.commit][i];
  }

  /** An index that a has committed in one state and b in the other holds one entry in both their logs. */
  ghost predicate AlikeAt(c: Cluster, d: Cluster, a: Id, b: Id, i: nat) {
    a < |c.servers| && b < |d.servers| && i < c.servers[a].commit && i < d.servers[b].commit ==>
      i < |c.servers[a].log| && i < |d.servers[b].log| && d.servers[b].log[i] == c.servers[a].log[i]
  }

  /** What is committed is in the log, and where both states have committed they agree. */
  ghost predicate CommittedAlike(c: Cluster, d: Cluster) {
    forall a: Id, b: Id, i: nat :: AlikeAt(c, d, a, b, i)
  }

  /**
   * State Machine Safety: once a server has committed an entry at an index, no server ever, at that time
   * or later, commits a different one there; and committed entries are really in the log.
   */
  lemma StateMachineSafety(size: nat, cap: nat, batch: nat, before: seq<Event>, after: seq<Event>)
    requires ValidRun(NewCluster(size, cap, batch), before) && CarefulRun(NewCluster(size, cap, batch), before)
    requires var c := Run(NewCluster(size, cap, batch), before); ValidRun(c, after) && CarefulRun(c, after)
    ensures var c := Run(NewCluster(size, cap, batch), before); CommittedAlike(c, Run(c, after))
  {
    StartsSafe(size, cap, batch);
    RunInv(NewCluster(size, cap, batch), before);
    AlikeAfter(Run(NewCluster(size, cap, batch), before), after);
  }

  lemma AlikeAfter(c: Cluster, evs: seq<Event>)
    requires Inv(c) && ValidRun(c, evs) && CarefulRun(c, evs)
    ensures CommittedAlike(c, Run(c, evs))
  {
    forall a: Id, b: Id, i: nat ensures AlikeAt(c, Run(c, evs), a, b, i) {
      CommitAgrees(c, evs, a, b, i);
    }
  }

  lemma CommitAgrees(c: Cluster, evs: seq<Event>, a: Id, b: Id, i: nat)
    requires Inv(c) && ValidRun(c, evs) && CarefulRun(c, evs)
    ensures AlikeAt(c, Run(c, evs), a, b, i)
  {
    var d := Run(c, evs);
    if a < |c.servers| && b < |d.servers| && i < c.servers[a].commit && i < d.servers[b].commit {
      RunInv(c, evs);
      var t, k := CommitmentOf(c, a, i);
      var u, l := CommitmentOf(d, b, i);
      CommittedForever(c, evs, t, k);
      CommittedInLeads(d);
      assert d.h.termLogs.Keys == d.h.leaders.Keys;
      CommitmentsAgree(d.h, |c.servers|, t, k, u, l, i);
    }
  }

  /** Leader Completeness, over runs: a later leader's log has every entry committed before it. */
  lemma LeadersHaveCommitted(size: nat, cap: nat, batch: nat, evs: seq<Event>, a: Id, b: Id, i: nat)
    requires ValidRun(NewCluster(size, cap, batch), evs) && CarefulRun(NewCluster(size, cap, batch), evs)
    requires var c := Run(NewCluster(size, cap, batch), evs);
      && a < |c.servers| && b < |c.servers| && i < c.servers[a].commit
      && c.servers[b].role.Leader? && c.servers[a].term <= c.servers[b].term
    ensures var c := Run(NewCluster(size, cap, batch), evs);
      i < |c.servers[a].log| && i < |c.servers[b].log| && c.servers[b].log[i] == c.servers[a].log[i]
  {
    var c := Run(NewCluster(size, cap, batch), evs);
    StartsSafe(size, cap, batch);
    RunInv(NewCluster(size, cap, batch), evs);
    LeaderHolds(c, a, b, i);
  }

  lemma LeaderHolds(c: Cluster, a: Id, b: Id, i: nat)
    requires Inv(c) && a < |c.servers| && b < |c.servers| && i < c.servers[a].commit
    requires c.servers[b].role.Leader? && c.servers[a].term <= c.servers[b].term
    ensures i < |c.servers[a].log| && i < |c.servers[b].log| && c.servers[b].log[i] == c.servers[a].log[i]
  {
    var s, u := c.servers[a], c.servers[b].term;
    assert Backed(c.h, |c.servers|, s.log, s.commit, s.term);
    var t: Term, k: nat :| t <= s.term && Backs(c.h, |c.servers|, s.log, s.commit, t, k);
    CommittedInLeads(c);
    assert M.ServerLogOk(b, c.servers[b], c.h) && c.h.termLogs.Keys == c.h.leaders.Keys;
    PrefixHolds(s.log, s.commit, c.h, t, k, u, i);
  }

  lemma PrefixHolds(log: seq<Entry>, n: nat, h: History, t: Term, k: nat, u: Term, i: nat)
    requires t in h.termLogs && u in h.termLogs && k <= |h.termLogs[t]| && i < n <= k && n <= |log|
    requires log[..n] == h.termLogs[t][..n] && C.Prefix(h, t, k) <= h.termLogs[u]
    ensures i < |h.termLogs[u]| && h.termLogs[u][i] == log[i]
  {
    assert log[i] == log[..n][i] == C.Prefix(h, t, k)[i];
  }

  // ---- The care is exact -------------------------------------------------

  /** Every commit index is within its log. */
  ghost predicate Within(c: Cluster) {
    forall n :: 0 <= n < |c.servers| ==> c.servers[n].commit <= |c.servers[n].log|
  }

  lemma InvWithin(c: Cluster)
    requires CommitInv(c)
    ensures Within(c)
  {
    forall n | 0 <= n < |c.servers| ensures c.servers[n].commit <= |c.servers[n].log| {
      var s := c.servers[n];
      assert Backed(c.h, |c.servers|, s.log, s.commit, s.term);
    }
  }

  lemma InvAlike(c: Cluster)
    requires Inv(c)
    ensures CommittedAlike(c, c)
  {
    AlikeAfter(c, []);
  }

  /** A commit index within the log means that what was adopted found room. */
  lemma WithinFits(c: Cluster, ev: Event)
    requires Enabled(c, ev) && Within(Next(c, ev))
    ensures C.Minds(c, ev, C.Fits)
  {
    if ev.HearsAppend? && Accepted(c.servers[ev.n], ev.m) {
      C.AcceptedState(c, ev.n, ev.m, ev.room);
      assert Next(c, ev).servers[ev.n] == OnAppend(c.servers[ev.n], ev.m, ev.room);
    }
  }

  /**
   * Where leaders count right, room for what is committed is exactly what one event needs: it is there if and
   * only if afterwards every commit index is within its log and all servers have committed alike.
   */
  lemma FitsIsExact(c: Cluster, ev: Event)
    requires Inv(c) && Enabled(c, ev) && C.Minds(c, ev, C.NoRestart) && C.Minds(c, ev, C.Held)
    ensures C.Minds(c, ev, C.Fits) <==> Within(Next(c, ev)) && CommittedAlike(Next(c, ev), Next(c, ev))
  {
    if C.Minds(c, ev, C.Fits) {
      NextInv(c, ev);
      InvWithin(Next(c, ev));
      InvAlike(Next(c, ev));
    } else if Within(Next(c, ev)) {
      WithinFits(c, ev);
    }
  }

  /** At every point of a run commit indices are within their logs. */
  ghost predicate AlwaysWithin(c: Cluster, evs: seq<Event>)
    requires ValidRun(c, evs)
    decreases |evs|
  {
    Within(c) && (evs != [] ==> AlwaysWithin(Next(c, evs[0]), evs[1..]))
  }

  /** Over whole runs too: no follower ever commits what it does not hold if and only if there was room. */
  lemma {:induction false} FitsIsExactOverRuns(c: Cluster, evs: seq<Event>)
    requires Inv(c) && ValidRun(c, evs) && RunMinds(c, evs, C.NoRestart) && RunMinds(c, evs, C.Held)
    ensures RunMinds(c, evs, C.Fits) <==> AlwaysWithin(c, evs)
    decreases |evs|
  {
    InvWithin(c);
    if evs != [] {
      var c' := Next(c, evs[0]);
      if C.Minds(c, evs[0], C.Fits) {
        NextInv(c, evs[0]);
        FitsIsExactOverRuns(c', evs[1..]);
      } else if Within(c') {
        WithinFits(c, evs[0]);
      }
    }
  }

  /** A commitment of its own term that is backed in a leader's log is held by a majority. */
  lemma BackedIsHeld(n: Id, s: Server, h: History, size: nat, k: nat)
    requires M.ServerLogOk(n, s, h) && s.role.Leader? && 0 < k <= |s.log| && TermAt(s.log, k) == s.term
    requires (forall t :: t in h.termLogs ==> M.TermLogOk(t, h)) && Backed(h, size, s.log, k, s.term)
    ensures C.Committed(h, size, s.term, k)
  {
    var t: Term, l: nat :| t <= s.term && Backs(h, size, s.log, k, t, l);
    M.TermsBounded(t, h);
    assert h.termLogs[t][k - 1] == h.termLogs[t][..k][k - 1] == s.log[..k][k - 1];
    var q :| E.IsQuorum(q, size) && C.AllAcked(h, q, t, l);
    assert C.AllAcked(h, q, t, k);
  }

  /** Counting right is exact as well: the invariant survives an event if and only if it takes both kinds of care. */
  lemma CareIsExact(c: Cluster, ev: Event)
    requires Inv(c) && Enabled(c, ev) && C.Minds(c, ev, C.NoRestart)
    ensures Inv(Next(c, ev)) <==> C.Minds(c, ev, C.Fits) && C.Minds(c, ev, C.Held)
  {
    if C.Minds(c, ev, C.Fits) && C.Minds(c, ev, C.Held) {
      NextInv(c, ev);
    } else if Inv(Next(c, ev)) {
      InvWithin(Next(c, ev));
      WithinFits(c, ev);
      InvCounts(c, ev);
    }
  }

  lemma InvCounts(c: Cluster, ev: Event)
    requires Inv(c) && Enabled(c, ev) && Inv(Next(c, ev))
    ensures C.Minds(c, ev, C.Held)
  {
    var n, s, s' := ev.n, c.servers[ev.n], Next(c, ev).servers[ev.n];
    if (ev.HearsAppendReply? || ev.Recounts?) && s'.commit != s.commit {
      AdvanceOnly(c, ev);
      assert M.ServerLogOk(n, s, c.h) && forall t :: t in c.h.termLogs ==> M.TermLogOk(t, c.h);
      assert Backed(c.h, |c.servers|, s'.log, s'.commit, s'.term);
      BackedIsHeld(n, s, c.h, |c.servers|, s'.commit);
    }
  }

  /** A commit index that moves is a leader's, and lands on an entry of its own term in an unchanged log. */
  lemma AdvanceOnly(c: Cluster, ev: Event)
    requires Enabled(c, ev) && (ev.HearsAppendReply? || ev.Recounts?)
    ensures var s, s' := c.servers[ev.n], Next(c, ev).servers[ev.n];
      && Next(c, ev).h == c.h && |Next(c, ev).servers| == |c.servers|
      && (s'.commit != s.commit ==>
            && s.role.Leader? && s'.log == s.log && s'.term == s.term
            && 0 < s'.commit <= |s.log| && TermAt(s.log, s'.commit) == s.term)
  {
    var s, n, size := c.servers[ev.n], ev.n, |c.servers|;
    AdvanceResult(s, n, size, |s.log|);
    if ev.HearsAppendReply? && ev.m.term == s.term && s.role.Leader? && ev.m.from < size && ev.m.success {
      AdvanceResult(Counted(s, ev.m), n, size, |s.log|);
    }
  }
}
